/** The WebRTC reactor (crates/transport-libdc/src/lib.rs): the bookkeeping one thread does for every
    command. What the foreign library answers (whether a call succeeded, how much it has buffered)
    is part of the command. */
module Reactor {
  import opened Common

  const BULK_PACE_TARGET: nat := 64 * 1024
  const BULK_PENDING_MAX: nat := 3 * 1024 * 1024

  datatype Channel = Ctrl | Bulk

  /** What one connection has been given and has passed on, in order. */
  datatype Trail = Trail(submitted: seq<Bytes>, handed: seq<Bytes>, received: seq<Bytes>, applied: seq<Bytes>)

  datatype Conn = Conn(ctrl: bool, bulk: bool, ctrlOpen: bool, bulkOpen: bool, announced: bool, inbound: bool,
                       queue: seq<Bytes>, queueBytes: nat, remoteSet: bool, pending: seq<Bytes>, trail: Trail)

  datatype Notice = Connected(peer: Peer) | Disconnected(peer: Peer)

  datatype State = State(peers: map<Peer, Conn>, orphans: map<Peer, seq<Bytes>>, connected: nat, maxInbound: nat,
                         notices: seq<Notice>)

  datatype Cmd =
    | Dial(peer: Peer, created: bool, ctrl: bool, bulk: bool)
    | Accept(peer: Peer, created: bool, applied: bool)
    | RemoteDescription(peer: Peer, applied: bool)
    | RemoteCandidate(peer: Peer, cand: Bytes)
    | Send(peer: Peer, channel: Channel, bytes: Bytes, buffered: nat)
    | DcArrived(peer: Peer, channel: Channel)
    | DcOpen(peer: Peer, channel: Channel)
    | StateChange(peer: Peer, terminal: bool)      // terminal: failed or closed
    | BulkDrain(peer: Peer, levels: nat -> nat)    // the buffered amount at each successive look
    | Close(peer: Peer)
    | Shutdown(order: seq<Peer>)                   // the order in which the peer table drains

  // ---- the paced queue ----

  function Size(q: seq<Bytes>): nat { if q == [] then 0 else |q[0]| + Size(q[1..]) }

  datatype Backlog = Backlog(queue: seq<Bytes>, bytes: nat, handed: seq<Bytes>)

  /** Drop the oldest chunks until one of `n` bytes fits, or none are left. */
  function MakeRoom(b: Backlog, n: nat): Backlog
    decreases |b.queue|
  {
    if b.bytes + n <= BULK_PENDING_MAX || b.queue == [] then b
    else MakeRoom(Backlog(b.queue[1..], SatSub(b.bytes, |b.queue[0]|), b.handed), n)
  }

  /** Release queued chunks while the channel's buffer stays below the pace target. */
  function Release(b: Backlog, levels: nat -> nat, look: nat): Backlog
    decreases |b.queue|
  {
    if b.queue == [] || levels(look) >= BULK_PACE_TARGET then b
    else Release(Backlog(b.queue[1..], SatSub(b.bytes, |b.queue[0]|), b.handed + [b.queue[0]]), levels, look + 1)
  }

  function BacklogOf(c: Conn): Backlog { Backlog(c.queue, c.queueBytes, c.trail.handed) }

  function With(c: Conn, b: Backlog): Conn {
    c.(queue := b.queue, queueBytes := b.bytes, trail := c.trail.(handed := b.handed))
  }

  function Submit(c: Conn, bytes: Bytes): Conn { c.(trail := c.trail.(submitted := c.trail.submitted + [bytes])) }

  function SendBulk(c: Conn, bytes: Bytes, buffered: nat): Conn {
    var d := Submit(c, bytes);
    if !c.bulk then d
    else if c.queue == [] && buffered < BULK_PACE_TARGET then d.(trail := d.trail.(handed := d.trail.handed + [bytes]))
    else var b := MakeRoom(BacklogOf(d), |bytes|); With(d, Backlog(b.queue + [bytes], b.bytes + |bytes|, b.handed))
  }

  // ---- candidates ----

  function Flush(c: Conn): Conn {
    c.(pending := [], trail := c.trail.(applied := c.trail.applied + c.pending))
  }

  function Candidate(c: Conn, cand: Bytes): Conn {
    var d := c.(trail := c.trail.(received := c.trail.received + [cand]));
    if c.remoteSet then d.(trail := d.trail.(applied := d.trail.applied + [cand]))
    else d.(pending := d.pending + [cand])
  }

  function Waiting(s: State, p: Peer): seq<Bytes> { if p in s.orphans then s.orphans[p] else [] }

  function NewConn(ctrl: bool, bulk: bool, inbound: bool, early: seq<Bytes>): Conn {
    Conn(ctrl, bulk, false, false, false, inbound, [], 0, false, early, Trail([], [], early, []))
  }

  // ---- commands ----

  function Put(s: State, p: Peer, c: Conn): State { s.(peers := s.peers[p := c]) }

  function Open(s: State, p: Peer, c: Conn): State { Put(s, p, c).(orphans := s.orphans - {p}) }

  function OnAccept(s: State, p: Peer, created: bool, applied: bool): State {
    if p in s.peers || |s.peers| >= s.maxInbound || !created then s else
      var c := NewConn(false, false, true, Waiting(s, p)).(remoteSet := applied);
      Open(s, p, if applied then Flush(c) else c)
  }

  function OnOpen(s: State, p: Peer, channel: Channel): State {
    if p !in s.peers then s else
      var c := if channel.Ctrl? then s.peers[p].(ctrlOpen := true) else s.peers[p].(bulkOpen := true);
      if c.ctrlOpen && c.bulkOpen && !c.announced
      then Put(s, p, c.(announced := true)).(connected := s.connected + 1, notices := s.notices + [Connected(p)])
      else Put(s, p, c)
  }

  function Remove(s: State, p: Peer): State {
    var t := s.(orphans := s.orphans - {p}, peers := s.peers - {p});
    if p in s.peers && s.peers[p].announced
    then t.(connected := SatSub(s.connected, 1), notices := s.notices + [Disconnected(p)])
    else t
  }

  function OnSend(s: State, p: Peer, channel: Channel, bytes: Bytes, buffered: nat): State {
    if p !in s.peers || channel.Ctrl? then s else Put(s, p, SendBulk(s.peers[p], bytes, buffered))
  }

  function Arrived(c: Conn, channel: Channel): Conn { if channel.Ctrl? then c.(ctrl := true) else c.(bulk := true) }

  function Drained(s: State, order: seq<Peer>): seq<Notice> {
    if order == [] then s.notices else
      var p := order[|order| - 1];
      Drained(s, order[..|order| - 1]) + if p in s.peers && s.peers[p].announced then [Disconnected(p)] else []
  }

  ghost predicate Legal(s: State, c: Cmd) { c.Shutdown? ==> Enumerates(c.order, s.peers.Keys) }

  function Step(s: State, cmd: Cmd): State {
    match cmd
    case Dial(p, created, ctrl, bulk) =>
      if p in s.peers || !created then s else Open(s, p, NewConn(ctrl, bulk, false, Waiting(s, p)))
    case Accept(p, created, applied) => OnAccept(s, p, created, applied)
    case RemoteDescription(p, applied) =>
      if p in s.peers && applied then Put(s, p, Flush(s.peers[p].(remoteSet := true))) else s
    case RemoteCandidate(p, cand) =>
      if p in s.peers then Put(s, p, Candidate(s.peers[p], cand))
      else s.(orphans := s.orphans[p := Waiting(s, p) + [cand]])
    case Send(p, channel, bytes, buffered) => OnSend(s, p, channel, bytes, buffered)
    case DcArrived(p, channel) => if p in s.peers then Put(s, p, Arrived(s.peers[p], channel)) else s
    case DcOpen(p, channel) => OnOpen(s, p, channel)
    case StateChange(p, terminal) => if terminal then Remove(s, p) else s
    case BulkDrain(p, levels) =>
      if p in s.peers && s.peers[p].bulk then Put(s, p, With(s.peers[p], Release(BacklogOf(s.peers[p]), levels, 0)))
      else s
    case Close(p) => Remove(s, p)
    case Shutdown(order) => State(map[], map[], 0, s.maxInbound, Drained(s, order))
  }

  // ---- order-preserving subsequences ----

  /** `xs` with some elements of `ys` left out. */
  ghost predicate Subseq<T>(xs: seq<T>, ys: seq<T>)
    decreases |ys|
  {
    xs == [] || (ys != [] && (Subseq(xs, ys[..|ys| - 1])
                              || (xs[|xs| - 1] == ys[|ys| - 1] && Subseq(xs[..|xs| - 1], ys[..|ys| - 1]))))
  }

  lemma SubseqSnoc<T>(xs: seq<T>, ys: seq<T>, y: T)
    requires Subseq(xs, ys)
    ensures Subseq(xs, ys + [y]) && Subseq(xs + [y], ys + [y])
  {
    assert (ys + [y])[..|ys + [y]| - 1] == ys;
    assert (xs + [y])[..|xs + [y]| - 1] == xs;
  }

  /** Leaving out one more element keeps a subsequence. */
  lemma {:induction false} SubseqDrop<T>(xs: seq<T>, ys: seq<T>, k: nat)
    requires Subseq(xs, ys) && k < |xs|
    ensures Subseq(xs[..k] + xs[k + 1..], ys)
    decreases |ys|
  {
    var init := ys[..|ys| - 1];
    if Subseq(xs, init) {
      SubseqDrop(xs, init, k);
    } else {
      var head, less := xs[..|xs| - 1], xs[..k] + xs[k + 1..];
      if k == |xs| - 1 {
        assert less == head;
      } else {
        SubseqDrop(head, init, k);
        assert less[..|less| - 1] == head[..k] + head[k + 1..];
        assert less[|less| - 1] == xs[|xs| - 1];
      }
    }
  }

  // ---- one connection ----

  /** The counter is the queue's size, and stays within the cap unless a lone chunk exceeds it. */
  ghost predicate Counted(b: Backlog) {
    b.bytes == Size(b.queue) && (b.bytes <= BULK_PENDING_MAX || |b.queue| == 1)
  }

  ghost predicate Sound(c: Conn) {
    && Counted(BacklogOf(c))
    && Subseq(c.trail.handed + c.queue, c.trail.submitted)
    && Lossless(c.trail.applied, c.pending, c.trail.received, c.remoteSet)
    && (c.announced <==> c.ctrlOpen && c.bulkOpen)
  }

  /** Candidates are applied in order of arrival: none before the remote description is set, and none waits
      once it is. */
  ghost predicate Lossless(applied: seq<Bytes>, pending: seq<Bytes>, received: seq<Bytes>, remoteSet: bool) {
    applied + pending == received && (if remoteSet then pending == [] else applied == [])
  }

  lemma {:induction false} SizeSnoc(q: seq<Bytes>, x: Bytes)
    ensures Size(q + [x]) == Size(q) + |x|
    decreases |q|
  {
    if q != [] { SizeSnoc(q[1..], x); assert (q + [x])[1..] == q[1..] + [x]; }
  }

  lemma {:induction false} RoomMade(b: Backlog, n: nat, submitted: seq<Bytes>)
    requires b.bytes == Size(b.queue) && Subseq(b.handed + b.queue, submitted)
    ensures var r := MakeRoom(b, n);
            r.bytes == Size(r.queue) && (r.bytes + n <= BULK_PENDING_MAX || r.queue == []) && r.handed == b.handed
            && Subseq(b.handed + r.queue, submitted)
    decreases |b.queue|
  {
    hide Subseq;
    if b.bytes + n > BULK_PENDING_MAX && b.queue != [] {
      var less := Backlog(b.queue[1..], SatSub(b.bytes, |b.queue[0]|), b.handed);
      var both, k := b.handed + b.queue, |b.handed|;
      SubseqDrop(both, submitted, k);
      assert both[..k] + both[k + 1..] == b.handed + less.queue;
      RoomMade(less, n, submitted);
    }
  }

  lemma {:induction false} ReleaseKeeps(b: Backlog, levels: nat -> nat, look: nat)
    requires Counted(b)
    ensures var r := Release(b, levels, look); Counted(r) && r.handed + r.queue == b.handed + b.queue
    decreases |b.queue|
  {
    if b.queue != [] && levels(look) < BULK_PACE_TARGET {
      var less := Backlog(b.queue[1..], SatSub(b.bytes, |b.queue[0]|), b.handed + [b.queue[0]]);
      assert less.handed + less.queue == b.handed + b.queue;
      ReleaseKeeps(less, levels, look + 1);
    }
  }

  /** A queued chunk takes the place of the oldest ones when there is no room. */
  lemma QueueSound(b: Backlog, bytes: Bytes, submitted: seq<Bytes>)
    requires Counted(b) && Subseq(b.handed + b.queue, submitted)
    ensures var r := MakeRoom(b, |bytes|);
            Counted(Backlog(r.queue + [bytes], r.bytes + |bytes|, r.handed))
            && Subseq(r.handed + (r.queue + [bytes]), submitted + [bytes])
  {
    hide Subseq, MakeRoom, Size;
    RoomMade(b, |bytes|, submitted);
    var r := MakeRoom(b, |bytes|);
    SubseqSnoc(r.handed + r.queue, submitted, bytes);
    assert r.handed + (r.queue + [bytes]) == r.handed + r.queue + [bytes];
    SizeSnoc(r.queue, bytes);
    assert Size([]) == 0 by { NoSize(); }
  }

  lemma NoSize()
    ensures Size([]) == 0
  {}

  lemma DirectSound(c: Conn, bytes: Bytes)
    requires Sound(c) && c.queue == []
    ensures var d := Submit(c, bytes); Sound(d.(trail := d.trail.(handed := d.trail.handed + [bytes])))
  {
    hide Subseq, Counted, Lossless;
    var handed := c.trail.handed;
    assert handed + [] == handed && handed + [bytes] + [] == handed + [bytes];
    SubseqSnoc(handed, c.trail.submitted, bytes);
    CountedIgnoresHanded(BacklogOf(c), handed + [bytes]);
  }

  lemma QueuedSound(c: Conn, bytes: Bytes)
    requires Sound(c)
    ensures var (d, b) := (Submit(c, bytes), MakeRoom(BacklogOf(c), |bytes|));
            Sound(With(d, Backlog(b.queue + [bytes], b.bytes + |bytes|, b.handed)))
  {
    hide Subseq, MakeRoom, Counted, Lossless;
    QueueSound(BacklogOf(c), bytes, c.trail.submitted);
  }

  lemma SubmitSound(c: Conn, bytes: Bytes)
    requires Sound(c)
    ensures Sound(Submit(c, bytes)) && BacklogOf(Submit(c, bytes)) == BacklogOf(c)
  {
    hide Subseq, Counted, Lossless;
    SubseqSnoc(c.trail.handed + c.queue, c.trail.submitted, bytes);
  }

  /** A submitted chunk goes straight out, waits its turn, or is discarded with the channel missing. */
  lemma SendSound(c: Conn, bytes: Bytes, buffered: nat)
    requires Sound(c)
    ensures Sound(SendBulk(c, bytes, buffered)) && SendBulk(c, bytes, buffered).announced == c.announced
  {
    hide Sound, MakeRoom;
    SubmitSound(c, bytes);
    if c.queue == [] { DirectSound(c, bytes); }
    QueuedSound(c, bytes);
  }

  lemma CountedIgnoresHanded(b: Backlog, handed: seq<Bytes>)
    requires Counted(b)
    ensures Counted(b.(handed := handed))
  {}

  lemma FlushSound(c: Conn)
    requires c.remoteSet && Sound(c.(remoteSet := false))
    ensures Sound(Flush(c))
  {
    assert c.trail.applied + c.pending + [] == c.trail.applied + c.pending;
  }

  lemma CandidateSound(c: Conn, cand: Bytes)
    requires Sound(c)
    ensures Sound(Candidate(c, cand))
  {
    hide Subseq;
    if c.remoteSet {
      assert c.trail.applied + [cand] + [] == c.trail.applied + [] + [cand];
    } else {
      assert c.trail.applied + (c.pending + [cand]) == c.trail.applied + c.pending + [cand];
    }
  }

  lemma NewSound(ctrl: bool, bulk: bool, inbound: bool, early: seq<Bytes>)
    ensures Sound(NewConn(ctrl, bulk, inbound, early))
  {
    assert [] + early == early;
  }

  // ---- the table ----

  ghost function Announced(peers: map<Peer, Conn>): set<Peer> { set p | p in peers && peers[p].announced }

  /** The last notice about `p` was a connect. */
  ghost predicate Up(notices: seq<Notice>, p: Peer) {
    notices != [] && (if notices[|notices| - 1].peer == p then notices[|notices| - 1].Connected?
                      else Up(notices[..|notices| - 1], p))
  }

  /** For each peer connects and disconnects strictly alternate, a connect first. */
  ghost predicate Alternates(notices: seq<Notice>) {
    forall i :: 0 <= i < |notices| ==> (notices[i].Connected? <==> !Up(notices[..i], notices[i].peer))
  }

  ghost predicate TableInv(s: State) {
    && s.connected == |Announced(s.peers)|
    && Alternates(s.notices)
    && (forall p :: Up(s.notices, p) <==> p in Announced(s.peers))
    && (forall p :: p in s.orphans ==> p !in s.peers)
  }

  ghost predicate Inv(s: State) { TableInv(s) && forall p :: p in s.peers ==> Sound(s.peers[p]) }

  lemma UpSnoc(notices: seq<Notice>, n: Notice, p: Peer)
    ensures Up(notices + [n], p) <==> if n.peer == p then n.Connected? else Up(notices, p)
  {
    assert (notices + [n])[..|notices + [n]| - 1] == notices;
  }

  lemma AlternatesSnoc(notices: seq<Notice>, n: Notice)
    requires Alternates(notices) && (n.Connected? <==> !Up(notices, n.peer))
    ensures Alternates(notices + [n])
  {
    var more := notices + [n];
    forall i | 0 <= i < |more| ensures more[i].Connected? <==> !Up(more[..i], more[i].peer) {
      assert more[..i] == if i < |notices| then notices[..i] else notices;
    }
  }

  /** Replacing a connection's details leaves the table as it was. */
  lemma PutTable(s: State, p: Peer, c: Conn)
    requires TableInv(s) && p in s.peers && c.announced == s.peers[p].announced
    ensures TableInv(Put(s, p, c))
  {
    hide Up, Alternates;
    assert Announced(Put(s, p, c).peers) == Announced(s.peers);
  }

  lemma OpenTable(s: State, p: Peer, c: Conn)
    requires TableInv(s) && p !in s.peers && !c.announced
    ensures TableInv(Open(s, p, c))
  {
    hide Up, Alternates;
    assert Announced(Open(s, p, c).peers) == Announced(s.peers);
  }

  lemma AnnounceTable(s: State, p: Peer, c: Conn)
    requires TableInv(s) && p in s.peers && !s.peers[p].announced && c.announced
    ensures TableInv(Put(s, p, c).(connected := s.connected + 1, notices := s.notices + [Connected(p)]))
  {
    hide Up, Alternates;
    assert Announced(Put(s, p, c).peers) == Announced(s.peers) + {p};
    AlternatesSnoc(s.notices, Connected(p));
    forall x ensures Up(s.notices + [Connected(p)], x) <==> x in Announced(s.peers) + {p} {
      UpSnoc(s.notices, Connected(p), x);
    }
  }

  lemma RemoveTable(s: State, p: Peer)
    requires TableInv(s)
    ensures TableInv(Remove(s, p))
  {
    hide Up, Alternates;
    assert Announced(s.peers - {p}) == Announced(s.peers) - {p};
    if p in Announced(s.peers) {
      AlternatesSnoc(s.notices, Disconnected(p));
      forall x ensures Up(s.notices + [Disconnected(p)], x) <==> x in Announced(s.peers) - {p} {
        UpSnoc(s.notices, Disconnected(p), x);
      }
    }
  }

  lemma {:induction false} DrainedAlternates(s: State, order: seq<Peer>)
    requires TableInv(s) && NoDup(order)
    ensures Alternates(Drained(s, order))
    ensures forall p :: Up(Drained(s, order), p) <==> p in Announced(s.peers) && p !in order
    decreases |order|
  {
    hide Up, Alternates;
    if order != [] {
      var init, p := order[..|order| - 1], order[|order| - 1];
      DrainedAlternates(s, init);
      assert order == init + [p] && p !in init;
      var before := Drained(s, init);
      if p in Announced(s.peers) {
        AlternatesSnoc(before, Disconnected(p));
        forall x ensures Up(before + [Disconnected(p)], x) <==> x in Announced(s.peers) && x !in order {
          UpSnoc(before, Disconnected(p), x);
        }
      } else {
        assert Drained(s, order) == before;
      }
    }
  }

  lemma ShutdownTable(s: State, order: seq<Peer>)
    requires TableInv(s) && Enumerates(order, s.peers.Keys)
    ensures TableInv(State(map[], map[], 0, s.maxInbound, Drained(s, order)))
  {
    hide Up, Alternates;
    DrainedAlternates(s, order);
  }

  // ---- every command ----

  lemma AcceptInv(s: State, p: Peer, created: bool, applied: bool)
    requires Inv(s)
    ensures Inv(OnAccept(s, p, created, applied))
  {
    hide Sound, TableInv;
    if p !in s.peers {
      var early := Waiting(s, p);
      NewSound(false, false, true, early);
      var c := NewConn(false, false, true, early).(remoteSet := applied);
      if applied {
        assert c.(remoteSet := false) == NewConn(false, false, true, early);
        FlushSound(c);
      }
      OpenTable(s, p, if applied then Flush(c) else c);
    }
  }

  lemma OpenedInv(s: State, p: Peer, channel: Channel)
    requires Inv(s)
    ensures Inv(OnOpen(s, p, channel))
  {
    hide TableInv, Subseq, Size;
    if p in s.peers {
      var c := if channel.Ctrl? then s.peers[p].(ctrlOpen := true) else s.peers[p].(bulkOpen := true);
      if c.ctrlOpen && c.bulkOpen && !c.announced {
        AnnounceTable(s, p, c.(announced := true));
      } else {
        PutTable(s, p, c);
      }
    }
  }

  lemma PutInv(s: State, p: Peer, c: Conn)
    requires Inv(s) && p in s.peers && c.announced == s.peers[p].announced && Sound(c)
    ensures Inv(Put(s, p, c))
  {
    hide Sound, TableInv;
    PutTable(s, p, c);
  }

  lemma DialInv(s: State, p: Peer, ctrl: bool, bulk: bool)
    requires Inv(s) && p !in s.peers
    ensures Inv(Open(s, p, NewConn(ctrl, bulk, false, Waiting(s, p))))
  {
    hide Sound, TableInv;
    NewSound(ctrl, bulk, false, Waiting(s, p));
    OpenTable(s, p, NewConn(ctrl, bulk, false, Waiting(s, p)));
  }

  lemma RemoveInv(s: State, p: Peer)
    requires Inv(s)
    ensures Inv(Remove(s, p))
  {
    hide Sound, TableInv;
    RemoveTable(s, p);
  }

  lemma DrainSound(c: Conn, levels: nat -> nat)
    requires Sound(c)
    ensures Sound(With(c, Release(BacklogOf(c), levels, 0)))
            && With(c, Release(BacklogOf(c), levels, 0)).announced == c.announced
  {
    hide Subseq, Counted, Lossless, Release;
    ReleaseKeeps(BacklogOf(c), levels, 0);
  }

  lemma ArrivedSound(c: Conn, channel: Channel)
    requires Sound(c)
    ensures Sound(Arrived(c, channel)) && Arrived(c, channel).announced == c.announced
  {
    hide Subseq, Counted, Lossless;
  }

  lemma DescribedSound(c: Conn)
    requires Sound(c)
    ensures Sound(Flush(c.(remoteSet := true))) && Flush(c.(remoteSet := true)).announced == c.announced
  {
    hide Subseq, Counted;
    assert c.trail.applied + c.pending + [] == c.trail.applied + c.pending;
  }

  lemma CandidateInv(s: State, p: Peer, cand: Bytes)
    requires Inv(s)
    ensures Inv(Step(s, RemoteCandidate(p, cand)))
  {
    hide Sound, TableInv, Candidate;
    if p in s.peers {
      CandidateSound(s.peers[p], cand);
      CandidateQuiet(s.peers[p], cand);
      PutInv(s, p, Candidate(s.peers[p], cand));
    } else {
      OrphanTable(s, p, Waiting(s, p) + [cand]);
    }
  }

  lemma CandidateQuiet(c: Conn, cand: Bytes)
    ensures Candidate(c, cand).announced == c.announced
  {}

  /** Commands about one existing connection. */
  lemma ConnInv(s: State, cmd: Cmd)
    requires Inv(s) && (cmd.Send? || cmd.DcArrived? || cmd.BulkDrain? || cmd.RemoteDescription?)
    ensures Inv(Step(s, cmd))
  {
    hide Sound, TableInv, SendBulk, Arrived, With, Release, Flush;
    var p := cmd.peer;
    if p in s.peers {
      var c := s.peers[p];
      match cmd
      case Send(_, _, bytes, buffered) => SendSound(c, bytes, buffered); PutInv(s, p, SendBulk(c, bytes, buffered));
      case DcArrived(_, channel) => ArrivedSound(c, channel); PutInv(s, p, Arrived(c, channel));
      case BulkDrain(_, levels) => DrainSound(c, levels); PutInv(s, p, With(c, Release(BacklogOf(c), levels, 0)));
      case RemoteDescription(_, _) => DescribedSound(c); PutInv(s, p, Flush(c.(remoteSet := true)));
    }
  }

  lemma StepInv(s: State, cmd: Cmd)
    requires Inv(s) && Legal(s, cmd)
    ensures Inv(Step(s, cmd))
  {
    hide TableInv, Sound, MakeRoom, Release, Candidate, SendBulk, OnAccept, OnOpen, Remove, Open, Flush, Drained;
    match cmd
    case Dial(p, created, ctrl, bulk) => if p !in s.peers { DialInv(s, p, ctrl, bulk); }
    case Accept(p, created, applied) => AcceptInv(s, p, created, applied);
    case RemoteCandidate(p, cand) => CandidateInv(s, p, cand);
    case DcOpen(p, channel) => OpenedInv(s, p, channel);
    case StateChange(p, terminal) => RemoveInv(s, p);
    case Close(p) => RemoveInv(s, p);
    case Shutdown(order) => ShutdownTable(s, order);
    case _ => ConnInv(s, cmd);
  }

  lemma OrphanTable(s: State, p: Peer, cands: seq<Bytes>)
    requires TableInv(s) && p !in s.peers
    ensures TableInv(s.(orphans := s.orphans[p := cands]))
  {
    hide Up, Alternates, Announced;
  }

  // ---- whole runs ----

  ghost predicate IsReactorRun(tr: seq<State>, cmds: seq<Cmd>) {
    && |tr| == |cmds| + 1 && tr[0] == State(map[], map[], 0, tr[0].maxInbound, [])
    && forall i :: 0 <= i < |cmds| ==> Legal(tr[i], cmds[i]) && tr[i + 1] == Step(tr[i], cmds[i])
  }

  lemma ReactorRunStep(tr: seq<State>, cmds: seq<Cmd>, i: nat)
    requires IsReactorRun(tr, cmds) && i < |cmds|
    ensures Legal(tr[i], cmds[i]) && tr[i + 1] == Step(tr[i], cmds[i])
  {
    hide Legal, Step;
  }

  /** Over every run: the counter is the number of announced peers, every peer's connects and disconnects
      alternate and end on its present state, and orphaned candidates belong to unconnected peers; a
      connection is announced exactly while both its channels are open; on every connection chunks leave in the
      order submitted, the backlog is counted and bounded, no candidate is lost or reordered, and none waits
      once the remote description is set. */
  lemma {:induction false} ReactorIsSound(tr: seq<State>, cmds: seq<Cmd>, i: nat)
    requires IsReactorRun(tr, cmds) && i <= |cmds|
    ensures Inv(tr[i])
    decreases i
  {
    hide Legal, Step;
    if i == 0 {
      assert Announced(map[]) == {};
    } else {
      hide Inv;
      ReactorIsSound(tr, cmds, i - 1);
      ReactorRunStep(tr, cmds, i - 1);
      StepInv(tr[i - 1], cmds[i - 1]);
    }
  }

  /** With every chunk within the cap, so is every backlog. */
  lemma BacklogIsBounded(tr: seq<State>, cmds: seq<Cmd>, i: nat, p: Peer)
    requires IsReactorRun(tr, cmds) && i <= |cmds| && p in tr[i].peers
    requires forall b :: b in tr[i].peers[p].trail.submitted ==> |b| <= BULK_PENDING_MAX
    ensures tr[i].peers[p].queueBytes == Size(tr[i].peers[p].queue) <= BULK_PENDING_MAX
  {
    hide Legal, Step, TableInv;
    ReactorIsSound(tr, cmds, i);
    var c := tr[i].peers[p];
    assert Sound(c);
    if |c.queue| == 1 {
      SubseqMembers(c.trail.handed + c.queue, c.trail.submitted, c.queue[0]);
      assert Size(c.queue[1..]) == 0;
    }
  }

  lemma {:induction false} SubseqMembers<T>(xs: seq<T>, ys: seq<T>, x: T)
    requires Subseq(xs, ys) && x in xs
    ensures x in ys
    decreases |ys|
  {
    var init := ys[..|ys| - 1];
    if Subseq(xs, init) {
      SubseqMembers(xs, init, x);
    } else if x != xs[|xs| - 1] {
      SubseqMembers(xs[..|xs| - 1], init, x);
    }
  }

  // ---- the object of the source ----

  class ReactorLoop {
    var peers: map<Peer, Conn>
    var orphans: map<Peer, seq<Bytes>>
    var connected: nat
    var maxInbound: nat
    var notices: seq<Notice>

    ghost function View(): State reads this { State(peers, orphans, connected, maxInbound, notices) }

    /** Everything proved of every run holds of the loop's own state. */
    ghost predicate Valid() reads this { Inv(View()) }

    constructor (max: nat)
      ensures View() == State(map[], map[], 0, max, []) && Valid()
    {
      peers, orphans, connected, maxInbound, notices := map[], map[], 0, max, [];
      assert Announced(map[]) == {};
    }

    method DropConnection(p: Peer)
      modifies this
      ensures View() == Remove(old(View()), p)
    {
      orphans := orphans - {p};
      if p in peers {
        var c := peers[p];
        peers := peers - {p};
        if c.announced {
          connected := if connected > 0 then connected - 1 else 0;
          notices := notices + [Disconnected(p)];
        }
      } else {
        assert peers - {p} == peers;
      }
    }

    method SendOnBulk(p: Peer, bytes: Bytes, buffered: nat)
      modifies this
      ensures View() == OnSend(old(View()), p, Bulk, bytes, buffered)
    {
      if p !in peers { return; }
      var c := Submit(peers[p], bytes);
      if c.bulk {
        if c.queue == [] && buffered < BULK_PACE_TARGET {
          c := c.(trail := c.trail.(handed := c.trail.handed + [bytes]));
        } else {
          var queue, total: nat := c.queue, c.queueBytes;
          while total + |bytes| > BULK_PENDING_MAX && queue != []
            invariant MakeRoom(BacklogOf(c), |bytes|) == MakeRoom(Backlog(queue, total, c.trail.handed), |bytes|)
            decreases |queue|
          {
            total := SatSub(total, |queue[0]|);
            queue := queue[1..];
          }
          c := c.(queue := queue + [bytes], queueBytes := total + |bytes|);
        }
      }
      peers := peers[p := c];
    }

    method DrainBulk(p: Peer, levels: nat -> nat)
      modifies this
      ensures View() == Step(old(View()), BulkDrain(p, levels))
    {
      if p !in peers || !peers[p].bulk { return; }
      var c := peers[p];
      var queue, total: nat, handed, look: nat := c.queue, c.queueBytes, c.trail.handed, 0;
      while queue != [] && levels(look) < BULK_PACE_TARGET
        invariant Release(BacklogOf(c), levels, 0) == Release(Backlog(queue, total, handed), levels, look)
        decreases |queue|
      {
        total := SatSub(total, |queue[0]|);
        handed := handed + [queue[0]];
        queue := queue[1..];
        look := look + 1;
      }
      peers := peers[p := c.(queue := queue, queueBytes := total, trail := c.trail.(handed := handed))];
    }

    method ShutDown(order: seq<Peer>)
      requires Enumerates(order, peers.Keys)
      modifies this
      ensures View() == Step(old(View()), Shutdown(order))
    {
      var i := 0;
      while i < |order|
        invariant 0 <= i <= |order|
        invariant peers == old(peers) && maxInbound == old(maxInbound)
        invariant notices == Drained(old(View()), order[..i])
      {
        var p := order[i];
        assert p in order;
        assert order[..i + 1][..i] == order[..i];
        if peers[p].announced { notices := notices + [Disconnected(p)]; }
        i := i + 1;
      }
      assert order[..i] == order;
      peers, orphans, connected := map[], map[], 0;
    }

    /** One command, which keeps the invariant. */
    method Handle(cmd: Cmd)
      requires Valid() && Legal(View(), cmd)
      modifies this
      ensures View() == Step(old(View()), cmd) && Valid()
    {
      hide Inv, Step, Legal;
      StepInv(View(), cmd);
      Dispatch(cmd);
    }

    method Dispatch(cmd: Cmd)
      requires Legal(View(), cmd)
      modifies this
      ensures View() == Step(old(View()), cmd)
    {
      hide MakeRoom, Release, Drained;
      match cmd
      case Dial(p, created, ctrl, bulk) =>
        if p in peers || !created { return; }
        var early := if p in orphans then orphans[p] else [];
        orphans := orphans - {p};
        peers := peers[p := NewConn(ctrl, bulk, false, early)];
      case Accept(p, created, applied) =>
        if p in peers || |peers| >= maxInbound || !created { return; }
        var early := if p in orphans then orphans[p] else [];
        orphans := orphans - {p};
        var c := NewConn(false, false, true, early).(remoteSet := applied);
        if applied { c := Flush(c); }
        peers := peers[p := c];
      case RemoteDescription(p, applied) =>
        if p in peers && applied { peers := peers[p := Flush(peers[p].(remoteSet := true))]; }
      case RemoteCandidate(p, cand) =>
        if p in peers { peers := peers[p := Candidate(peers[p], cand)]; }
        else { orphans := orphans[p := (if p in orphans then orphans[p] else []) + [cand]]; }
      case Send(p, channel, bytes, buffered) =>
        if channel.Bulk? { SendOnBulk(p, bytes, buffered); }
      case DcArrived(p, channel) =>
        if p in peers { peers := peers[p := Arrived(peers[p], channel)]; }
      case DcOpen(p, channel) =>
        if p !in peers { return; }
        var c := peers[p];
        c := if channel.Ctrl? then c.(ctrlOpen := true) else c.(bulkOpen := true);
        if c.ctrlOpen && c.bulkOpen && !c.announced {
          c := c.(announced := true);
          connected := connected + 1;
          notices := notices + [Connected(p)];
        }
        peers := peers[p := c];
      case StateChange(p, terminal) => if terminal { DropConnection(p); }
      case BulkDrain(p, levels) => DrainBulk(p, levels);
      case Close(p) => DropConnection(p);
      case Shutdown(order) => ShutDown(order);
    }
  }
}
