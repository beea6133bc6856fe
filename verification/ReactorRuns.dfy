/** What the reactor does for one peer, told from the commands alone: when it is announced, what was submitted
    and received, and where each chunk goes. */
module ReactorRuns {
  import opened Common
  import opened Reactor

  // ---- one command ----

  /** `q` has the connection and the waiting candidates it had. */
  ghost predicate Same(s: State, t: State, q: Peer) {
    && (q in t.peers <==> q in s.peers) && (q in s.peers ==> t.peers[q] == s.peers[q])
    && Waiting(t, q) == Waiting(s, q)
  }

  lemma PutSame(s: State, p: Peer, c: Conn, q: Peer)
    requires p != q
    ensures Same(s, Put(s, p, c), q) && Same(s, Open(s, p, c), q)
  {}

  lemma OpenSame(s: State, p: Peer, channel: Channel, q: Peer)
    requires p != q
    ensures Same(s, OnOpen(s, p, channel), q)
  {}

  lemma RemoveSame(s: State, p: Peer, q: Peer)
    requires p != q
    ensures Same(s, Remove(s, p), q)
  {}

  /** A command about one peer leaves every other connection alone. */
  lemma OthersUnmoved(s: State, cmd: Cmd, q: Peer)
    requires !cmd.Shutdown? && cmd.peer != q
    ensures Same(s, Step(s, cmd), q)
  {
    forall c ensures Same(s, Put(s, cmd.peer, c), q) && Same(s, Open(s, cmd.peer, c), q) { PutSame(s, cmd.peer, c, q); }
    RemoveSame(s, cmd.peer, q);
    if cmd.DcOpen? { OpenSame(s, cmd.peer, cmd.channel, q); }
    if cmd.RemoteCandidate? { OrphanSame(s, cmd.peer, Waiting(s, cmd.peer) + [cmd.cand], q); }
    assert Same(s, s, q);
    hide Same, Put, Open, OnOpen, Remove, Waiting, SendBulk, Release, Flush, Candidate, With, Arrived, NewConn,
        BacklogOf;
  }

  lemma OrphanSame(s: State, p: Peer, cands: seq<Bytes>, q: Peer)
    requires p != q
    ensures Same(s, s.(orphans := s.orphans[p := cands]), q)
  {}

  function Other(channel: Channel): Channel { if channel.Ctrl? then Bulk else Ctrl }

  function IsOpen(c: Conn, channel: Channel): bool { if channel.Ctrl? then c.ctrlOpen else c.bulkOpen }

  /** The command opens the second of `p`'s two channels. */
  ghost predicate Completes(s: State, cmd: Cmd, p: Peer) {
    && cmd.DcOpen? && cmd.peer == p && p in s.peers
    && !IsOpen(s.peers[p], cmd.channel) && IsOpen(s.peers[p], Other(cmd.channel))
  }

  /** The command ends the connection to `p`, after both its channels had opened. */
  ghost predicate Ends(s: State, cmd: Cmd, p: Peer) {
    && (cmd.Close? || (cmd.StateChange? && cmd.terminal)) && cmd.peer == p
    && p in s.peers && s.peers[p].ctrlOpen && s.peers[p].bulkOpen
  }

  /** A peer is reported connected by exactly the command that opens its second channel, and disconnected by
      exactly the one that ends the connection; no other command but the shutdown reports anything. */
  lemma NoticesExactly(s: State, cmd: Cmd)
    requires Inv(s) && !cmd.Shutdown?
    ensures var (n, p) := (Step(s, cmd).notices, cmd.peer);
            && (n == s.notices + [Connected(p)] <==> Completes(s, cmd, p))
            && (n == s.notices + [Disconnected(p)] <==> Ends(s, cmd, p))
            && (n == s.notices <==> !Completes(s, cmd, p) && !Ends(s, cmd, p))
  {
    hide TableInv, Counted, Subseq, Lossless, SendBulk, Release, Flush, Candidate;
    assert |s.notices + [Connected(cmd.peer)]| == |s.notices| + 1;
    assert (s.notices + [Connected(cmd.peer)])[|s.notices|] == Connected(cmd.peer);
    assert (s.notices + [Disconnected(cmd.peer)])[|s.notices|] == Disconnected(cmd.peer);
  }

  /** A connection begins with a dial, or with an offer accepted while the table has room. */
  ghost predicate Creates(s: State, cmd: Cmd, p: Peer) {
    || (cmd.Dial? && cmd.peer == p && cmd.created)
    || (cmd.Accept? && cmd.peer == p && cmd.created && |s.peers| < s.maxInbound)
  }

  ghost predicate Removes(cmd: Cmd, p: Peer) {
    || cmd.Shutdown?
    || (cmd.Close? && cmd.peer == p)
    || (cmd.StateChange? && cmd.peer == p && cmd.terminal)
  }

  /** A peer enters the table exactly by a command that creates its connection, and leaves it exactly by one
      that removes it. An accepted offer leaves the table within its limit. */
  lemma TableExactly(s: State, cmd: Cmd, p: Peer)
    requires Legal(s, cmd)
    ensures p !in s.peers ==> (p in Step(s, cmd).peers <==> Creates(s, cmd, p))
    ensures p in s.peers ==> (p !in Step(s, cmd).peers <==> Removes(cmd, p))
    ensures cmd.Accept? ==> Step(s, cmd).peers == s.peers || |Step(s, cmd).peers| <= s.maxInbound
  {
    if !cmd.Shutdown? && cmd.peer != p { OthersUnmoved(s, cmd, p); }
    if cmd.Accept? { AcceptFits(s, cmd.peer, cmd.created, cmd.applied); }
    hide SendBulk, Release, MakeRoom, Flush, Candidate, With, Arrived, NewConn, BacklogOf, Waiting;
  }

  lemma AcceptFits(s: State, p: Peer, created: bool, applied: bool)
    ensures var t := OnAccept(s, p, created, applied); t.peers == s.peers || |t.peers| <= s.maxInbound
  {
    hide NewConn, Flush, Waiting;
    var t := OnAccept(s, p, created, applied);
    if p !in s.peers && |s.peers| < s.maxInbound { OneMore(s.peers.Keys, t.peers.Keys, p); }
  }

  lemma OneMore(xs: set<Peer>, ys: set<Peer>, p: Peer)
    requires ys == xs || ys == xs + {p}
    ensures |ys| <= |xs| + 1
  {}

  // ---- the life of one connection ----

  /** The command at `c` created the connection to `p` that is still there at `i`. */
  ghost predicate Alive(tr: seq<State>, p: Peer, c: nat, i: nat)
    requires c < i < |tr|
  {
    p !in tr[c].peers && forall k :: c < k <= i ==> p in tr[k].peers
  }

  ghost predicate OpenedIn(cmds: seq<Cmd>, p: Peer, channel: Channel, c: nat, i: nat)
    requires i <= |cmds|
  {
    exists k :: c < k < i && cmds[k] == DcOpen(p, channel)
  }

  /** The remote description was set when the connection was created, or by a command since. */
  ghost predicate DescribedIn(cmds: seq<Cmd>, p: Peer, c: nat, i: nat)
    requires c < i <= |cmds|
  {
    (cmds[c].Accept? && cmds[c].applied) || exists k :: c < k < i && cmds[k] == RemoteDescription(p, true)
  }

  /** The bulk chunks submitted to `p` by the commands from `c` up to `i`. */
  ghost function Sent(cmds: seq<Cmd>, p: Peer, c: nat, i: nat): seq<Bytes>
    requires c <= i <= |cmds|
    decreases i
  {
    if i == c then [] else
      var cmd := cmds[i - 1];
      Sent(cmds, p, c, i - 1) + if cmd.Send? && cmd.peer == p && cmd.channel.Bulk? then [cmd.bytes] else []
  }

  /** The candidates for `p` among the commands from `c` up to `i`. */
  ghost function Heard(cmds: seq<Cmd>, p: Peer, c: nat, i: nat): seq<Bytes>
    requires c <= i <= |cmds|
    decreases i
  {
    if i == c then [] else
      var cmd := cmds[i - 1];
      Heard(cmds, p, c, i - 1) + if cmd.RemoteCandidate? && cmd.peer == p then [cmd.cand] else []
  }

  ghost predicate Tells(s: State, cmds: seq<Cmd>, p: Peer, c: nat, i: nat, early: seq<Bytes>)
    requires c < i <= |cmds|
  {
    && p in s.peers
    && (s.peers[p].ctrlOpen <==> OpenedIn(cmds, p, Ctrl, c, i))
    && (s.peers[p].bulkOpen <==> OpenedIn(cmds, p, Bulk, c, i))
    && (s.peers[p].remoteSet <==> DescribedIn(cmds, p, c, i))
    && s.peers[p].trail.submitted == Sent(cmds, p, c + 1, i)
    && s.peers[p].trail.received == early + Heard(cmds, p, c + 1, i)
  }

  ghost predicate Fresh(n: Conn, early: seq<Bytes>, described: bool) {
    && !n.ctrlOpen && !n.bulkOpen && n.trail.submitted == [] && n.trail.received == early
    && (n.remoteSet <==> described)
  }

  lemma NewIsFresh(ctrl: bool, bulk: bool, inbound: bool, early: seq<Bytes>)
    ensures Fresh(NewConn(ctrl, bulk, inbound, early), early, false)
    ensures Fresh(Flush(NewConn(ctrl, bulk, inbound, early).(remoteSet := true)), early, true)
  {}

  lemma Created(s: State, cmd: Cmd, p: Peer)
    requires p !in s.peers && p in Step(s, cmd).peers && Legal(s, cmd)
    ensures Fresh(Step(s, cmd).peers[p], Waiting(s, p), cmd.Accept? && cmd.applied)
  {
    TableExactly(s, cmd, p);
    hide Fresh, NewConn, Flush, Waiting;
    if cmd.Dial? {
      NewIsFresh(cmd.ctrl, cmd.bulk, false, Waiting(s, p));
    } else {
      NewIsFresh(false, false, true, Waiting(s, p));
      NotDescribed(false, false, true, Waiting(s, p));
    }
  }

  lemma NotDescribed(ctrl: bool, bulk: bool, inbound: bool, early: seq<Bytes>)
    ensures var n := NewConn(ctrl, bulk, inbound, early); n.(remoteSet := false) == n
  {}

  lemma OpenedSnoc(cmds: seq<Cmd>, p: Peer, channel: Channel, c: nat, i: nat)
    requires c < i < |cmds|
    ensures OpenedIn(cmds, p, channel, c, i + 1) <==>
            OpenedIn(cmds, p, channel, c, i) || cmds[i] == DcOpen(p, channel)
  {
    if OpenedIn(cmds, p, channel, c, i) {
      var k :| c < k < i && cmds[k] == DcOpen(p, channel);
    }
  }

  lemma DescribedSnoc(cmds: seq<Cmd>, p: Peer, c: nat, i: nat)
    requires c < i < |cmds|
    ensures DescribedIn(cmds, p, c, i + 1) <==> DescribedIn(cmds, p, c, i) || cmds[i] == RemoteDescription(p, true)
  {
    if DescribedIn(cmds, p, c, i) && !(cmds[c].Accept? && cmds[c].applied) {
      var k :| c < k < i && cmds[k] == RemoteDescription(p, true);
    }
  }

  /** What one command does to a connection that outlives it. */
  lemma ConnMoves(s: State, cmd: Cmd, p: Peer)
    requires p in s.peers && p in Step(s, cmd).peers && Legal(s, cmd)
    ensures Moves(s.peers[p], Step(s, cmd).peers[p], cmd, p)
  {
    if !cmd.Shutdown? && cmd.peer != p {
      OthersUnmoved(s, cmd, p);
      hide Step;
    } else {
      hide SendBulk, With, Release, MakeRoom, Candidate, BacklogOf, Moves;
      OwnMoves(s.peers[p], cmd, p);
      QuietMoves(s.peers[p], cmd, p);
      if cmd.DcOpen? {
        OpenMoves(s.peers[p], cmd.channel, p, s.peers[p].announced);
        OpenMoves(s.peers[p], cmd.channel, p, true);
      }
    }
  }

  ghost predicate Moves(a: Conn, b: Conn, cmd: Cmd, p: Peer) {
    && (b.ctrlOpen <==> a.ctrlOpen || cmd == DcOpen(p, Ctrl))
    && (b.bulkOpen <==> a.bulkOpen || cmd == DcOpen(p, Bulk))
    && (b.remoteSet <==> a.remoteSet || cmd == RemoteDescription(p, true))
    && b.trail.submitted ==
         (if cmd.Send? && cmd.peer == p && cmd.channel.Bulk? then a.trail.submitted + [cmd.bytes]
             else a.trail.submitted)
    && b.trail.received ==
         (if cmd.RemoteCandidate? && cmd.peer == p then a.trail.received + [cmd.cand] else a.trail.received)
  }

  lemma OwnMoves(c: Conn, cmd: Cmd, p: Peer)
    requires cmd.Shutdown? || cmd.peer == p
    ensures !cmd.Send? && !cmd.RemoteCandidate? && !cmd.DcOpen? && !(cmd.RemoteDescription? && cmd.applied) ==>
              Moves(c, c, cmd, p)
    ensures cmd.Send? && cmd.channel.Ctrl? ==> Moves(c, c, cmd, p)
    ensures cmd.Send? && cmd.channel.Bulk? ==> Moves(c, SendBulk(c, cmd.bytes, cmd.buffered), cmd, p)
    ensures cmd.RemoteCandidate? ==> Moves(c, Candidate(c, cmd.cand), cmd, p)
    ensures cmd.RemoteDescription? && cmd.applied ==> Moves(c, Flush(c.(remoteSet := true)), cmd, p)
  {
    hide MakeRoom;
  }

  lemma QuietMoves(c: Conn, cmd: Cmd, p: Peer)
    requires cmd.Shutdown? || cmd.peer == p
    ensures cmd.BulkDrain? ==> Moves(c, With(c, Release(BacklogOf(c), cmd.levels, 0)), cmd, p)
    ensures cmd.DcArrived? ==> Moves(c, Arrived(c, cmd.channel), cmd, p)
  {
    hide Release;
  }

  lemma OpenMoves(c: Conn, channel: Channel, p: Peer, yes: bool)
    ensures channel.Ctrl? ==> Moves(c, c.(ctrlOpen := true, announced := yes), DcOpen(p, channel), p)
    ensures channel.Bulk? ==> Moves(c, c.(bulkOpen := true, announced := yes), DcOpen(p, channel), p)
  {}

  lemma {:induction false} LifeTold(tr: seq<State>, cmds: seq<Cmd>, p: Peer, c: nat, i: nat)
    requires IsReactorRun(tr, cmds) && c < i <= |cmds| && Alive(tr, p, c, i)
    ensures Tells(tr[i], cmds, p, c, i, Waiting(tr[c], p))
    decreases i
  {
    hide Step, Legal, Inv, Tells, Moves, Waiting, Fresh;
    ReactorRunStep(tr, cmds, i - 1);
    assert p in tr[i].peers;
    if i == c + 1 {
      hide IsReactorRun;
      Created(tr[c], cmds[c], p);
      ToldFirst(tr[i], cmds, p, c, Waiting(tr[c], p));
    } else {
      LifeTold(tr, cmds, p, c, i - 1);
      assert p in tr[i - 1].peers;
      hide IsReactorRun, Alive;
      ConnMoves(tr[i - 1], cmds[i - 1], p);
      ToldOn(tr[i - 1], tr[i], cmds, p, c, i - 1, Waiting(tr[c], p));
    }
  }

  lemma ToldFirst(t: State, cmds: seq<Cmd>, p: Peer, c: nat, early: seq<Bytes>)
    requires c < |cmds| && p in t.peers && Fresh(t.peers[p], early, cmds[c].Accept? && cmds[c].applied)
    ensures Tells(t, cmds, p, c, c + 1, early)
  {
    assert early + [] == early;
  }

  lemma ToldOn(s: State, t: State, cmds: seq<Cmd>, p: Peer, c: nat, i: nat, early: seq<Bytes>)
    requires c < i < |cmds| && Tells(s, cmds, p, c, i, early)
    requires p in t.peers && Moves(s.peers[p], t.peers[p], cmds[i], p)
    ensures Tells(t, cmds, p, c, i + 1, early)
  {
    OpenedSnoc(cmds, p, Ctrl, c, i);
    OpenedSnoc(cmds, p, Bulk, c, i);
    DescribedSnoc(cmds, p, c, i);
    hide OpenedIn, DescribedIn;
    var sent, heard, none: seq<Bytes> := Sent(cmds, p, c + 1, i), Heard(cmds, p, c + 1, i), [];
    assert sent + none == sent && heard + none == heard;
    if cmds[i].RemoteCandidate? { assert early + heard + [cmds[i].cand] == early + (heard + [cmds[i].cand]); }
  }

  /** Over every run: a peer in the table is announced exactly when both its channels have opened since the
      command that created its connection. What leaves or waits is drawn in order from what was submitted since
      then; and the candidates that waited for it and those that came since, in order, are all applied once the
      remote description is set, and all wait before. */
  lemma AnnouncedExactly(tr: seq<State>, cmds: seq<Cmd>, p: Peer, c: nat, i: nat)
    requires IsReactorRun(tr, cmds) && c < i <= |cmds| && Alive(tr, p, c, i)
    ensures Creates(tr[c], cmds[c], p)
    ensures p in tr[i].peers
    ensures tr[i].peers[p].announced <==> OpenedIn(cmds, p, Ctrl, c, i) && OpenedIn(cmds, p, Bulk, c, i)
    ensures Subseq(tr[i].peers[p].trail.handed + tr[i].peers[p].queue, Sent(cmds, p, c + 1, i))
    ensures var all := Waiting(tr[c], p) + Heard(cmds, p, c + 1, i);
            if DescribedIn(cmds, p, c, i) then tr[i].peers[p].trail.applied == all && tr[i].peers[p].pending == []
            else tr[i].peers[p].trail.applied == [] && tr[i].peers[p].pending == all
  {
    hide Step, Legal, Inv, Tells, OpenedIn, DescribedIn, Creates, Waiting;
    LifeTold(tr, cmds, p, c, i);
    ReactorIsSound(tr, cmds, i);
    ReactorRunStep(tr, cmds, c);
    assert p in tr[c + 1].peers;
    hide Alive, IsReactorRun;
    TableExactly(tr[c], cmds[c], p);
    ToldMeans(tr[i], cmds, p, c, i, Waiting(tr[c], p));
  }

  lemma ToldMeans(s: State, cmds: seq<Cmd>, p: Peer, c: nat, i: nat, early: seq<Bytes>)
    requires c < i <= |cmds| && Inv(s) && Tells(s, cmds, p, c, i, early)
    ensures p in s.peers
    ensures s.peers[p].announced <==> OpenedIn(cmds, p, Ctrl, c, i) && OpenedIn(cmds, p, Bulk, c, i)
    ensures Subseq(s.peers[p].trail.handed + s.peers[p].queue, Sent(cmds, p, c + 1, i))
    ensures var all := early + Heard(cmds, p, c + 1, i);
            if DescribedIn(cmds, p, c, i) then s.peers[p].trail.applied == all && s.peers[p].pending == []
            else s.peers[p].trail.applied == [] && s.peers[p].pending == all
  {
    hide TableInv, Subseq, Counted, OpenedIn, DescribedIn, Sent, Heard;
    var n := s.peers[p];
    assert Sound(n) && n.trail.applied + [] == n.trail.applied && [] + n.pending == n.pending;
  }

  /** The moment its connection was created, for any peer in the table. */
  lemma {:induction false} HasBeginning(tr: seq<State>, cmds: seq<Cmd>, p: Peer, i: nat) returns (c: nat)
    requires IsReactorRun(tr, cmds) && i <= |cmds| && p in tr[i].peers
    ensures c < i && Alive(tr, p, c, i)
    decreases i
  {
    if p !in tr[i - 1].peers { c := i - 1; }
    else { c := HasBeginning(tr, cmds, p, i - 1); }
  }

  /** Candidates that come before there is a connection wait, in order, until it is created or its peer is
      removed. */
  lemma {:induction false} EarlyCandidatesWait(tr: seq<State>, cmds: seq<Cmd>, p: Peer, c: nat, i: nat)
    requires IsReactorRun(tr, cmds) && c <= i <= |cmds|
    requires forall k :: c <= k <= i ==> p !in tr[k].peers
    requires forall k :: c <= k < i ==> !Removes(cmds[k], p)
    ensures Waiting(tr[i], p) == Waiting(tr[c], p) + Heard(cmds, p, c, i)
    decreases i
  {
    if i > c {
      EarlyCandidatesWait(tr, cmds, p, c, i - 1);
      ReactorRunStep(tr, cmds, i - 1);
      OrphanMoves(tr[i - 1], cmds[i - 1], p);
    }
  }

  lemma OrphanMoves(s: State, cmd: Cmd, p: Peer)
    requires p !in s.peers && p !in Step(s, cmd).peers && !Removes(cmd, p)
    ensures Waiting(Step(s, cmd), p) == Waiting(s, p)
              + (if cmd.RemoteCandidate? && cmd.peer == p then [cmd.cand] else [])
  {
    var none: seq<Bytes> := [];
    assert Waiting(s, p) + none == Waiting(s, p);
    if cmd.peer != p {
      OthersUnmoved(s, cmd, p);
      hide Step;
    } else if cmd.RemoteCandidate? {
      hide NewConn, Flush;
    } else {
      Idle(s, cmd);
    }
  }

  /** A command about a peer without a connection, that neither makes one nor ends one, does nothing. */
  lemma Idle(s: State, cmd: Cmd)
    requires !cmd.Shutdown? && cmd.peer !in s.peers && cmd.peer !in Step(s, cmd).peers
    requires !Removes(cmd, cmd.peer) && !cmd.RemoteCandidate?
    ensures Step(s, cmd) == s
  {
    hide NewConn, Flush, Waiting;
  }

  // ---- where a chunk goes ----

  /** The first `k` chunks make way for one of `n` bytes: with one fewer gone it would not fit, and now it does
      or nothing is left. */
  ghost predicate MakesWay(queue: seq<Bytes>, n: nat, k: nat) {
    && k <= |queue|
    && (k > 0 ==> Size(queue[k - 1..]) + n > BULK_PENDING_MAX)
    && (k < |queue| ==> Size(queue[k..]) + n <= BULK_PENDING_MAX)
  }

  lemma {:induction false} RoomExactly(b: Backlog, n: nat) returns (k: nat)
    requires b.bytes == Size(b.queue)
    ensures MakesWay(b.queue, n, k)
    ensures MakeRoom(b, n).queue == b.queue[k..] && MakeRoom(b, n).handed == b.handed
    decreases |b.queue|
  {
    if b.bytes + n <= BULK_PENDING_MAX || b.queue == [] {
      k := 0;
      assert b.queue[0..] == b.queue;
    } else {
      var less := Backlog(b.queue[1..], SatSub(b.bytes, |b.queue[0]|), b.handed);
      var j := RoomExactly(less, n);
      k := j + 1;
      assert less.queue[j..] == b.queue[k..];
      if j > 0 { assert less.queue[j - 1..] == b.queue[j..]; } else { assert b.queue[0..] == b.queue; }
    }
  }

  /** A chunk for an open bulk channel goes straight out exactly when nothing waits and the channel's buffer is
      below the pace target; otherwise it joins the end of the queue, whose oldest chunks make way for it, no
      more of them than must. Without the channel it is discarded. */
  lemma ChunkGoesExactly(c: Conn, bytes: Bytes, buffered: nat)
    requires Sound(c)
    ensures var d := SendBulk(c, bytes, buffered);
            if !c.bulk then d.queue == c.queue && d.trail.handed == c.trail.handed
            else if c.queue == [] && buffered < 65_536
            then d.queue == [] && d.trail.handed == c.trail.handed + [bytes]
            else d.trail.handed == c.trail.handed
                 && exists k: nat :: MakesWay(c.queue, |bytes|, k) && d.queue == c.queue[k..] + [bytes]
  {
    hide MakeRoom, Subseq;
    var k := RoomExactly(BacklogOf(c), |bytes|);
    assert MakesWay(c.queue, |bytes|, k) && MakeRoom(BacklogOf(c), |bytes|).queue == c.queue[k..];
    hide MakesWay;
    assert MakeRoom(BacklogOf(Submit(c, bytes)), |bytes|) == MakeRoom(BacklogOf(c), |bytes|);
  }

  /** A drain hands over chunks from the front while each look finds the buffer below the target, and stops at
      the first look that does not or when nothing is left. */
  lemma {:induction false} DrainStopsExactly(b: Backlog, levels: nat -> nat, look: nat) returns (n: nat)
    ensures n <= |b.queue|
    ensures Release(b, levels, look).handed == b.handed + b.queue[..n]
    ensures Release(b, levels, look).queue == b.queue[n..]
    ensures forall j: nat :: look <= j < look + n ==> levels(j) < 65_536
    ensures n < |b.queue| ==> levels(look + n) >= 65_536
    decreases |b.queue|
  {
    if b.queue == [] || levels(look) >= BULK_PACE_TARGET {
      n := 0;
      assert b.handed + b.queue[..0] == b.handed && b.queue[0..] == b.queue;
    } else {
      var less := Backlog(b.queue[1..], SatSub(b.bytes, |b.queue[0]|), b.handed + [b.queue[0]]);
      var m := DrainStopsExactly(less, levels, look + 1);
      n := m + 1;
      assert less.queue[m..] == b.queue[n..];
      assert b.handed + [b.queue[0]] + less.queue[..m] == b.handed + b.queue[..n];
    }
  }
}
