// valkey_patches/0004_Add_waitquorum_command.patch: which replica connections count
// towards the quorum, when WAITQUORUM answers, and which blocked clients a round of
// acknowledgements releases.

module WaitQuorum {
  import opened Quorum
  import opened Wrappers

  type Name = string

  /** One entry of server.replicas, as far as acknowledgements are concerned. */
  datatype Link = Link(name: Name, online: bool, quorum: bool, ackOff: nat, aofOff: nat)

  class Replica {
    const name: Name
    var online: bool
    var quorum: bool
    var ackOff: nat
    var aofOff: nat

    constructor (name: Name)
      ensures this.name == name && View() == Link(name, false, false, 0, 0)
    {
      this.name := name;
      online, quorum, ackOff, aofOff := false, false, 0, 0;
    }

    function View(): Link reads this {
      Link(name, online, quorum, ackOff, aofOff)
    }
  }

  datatype Kind = PlainWait | WaitAof | WaitQuorum

  datatype Answer = Refused | Replied(acks: nat) | Blocked

  /** One entry of the list of blocked clients, by the command it is blocked in. The patch
      sets the quorum mark of a client and nowhere clears it; the kind is that of the
      mark at the time the list is walked. */
  datatype Waiter = Waiter(kind: Kind, offset: nat, needed: nat)

  // ----- counting acknowledgements -----

  predicate CountsFor(kind: Kind, link: Link, offset: nat) {
    && link.online
    && match kind
       case PlainWait => link.ackOff >= offset
       case WaitAof => link.aofOff >= offset
       case WaitQuorum => link.quorum && link.ackOff >= offset
  }

  function Count(kind: Kind, links: seq<Link>, offset: nat): nat {
    if links == [] then 0
    else Count(kind, links[..|links| - 1], offset) + if CountsFor(kind, links[|links| - 1], offset) then 1 else 0
  }

  lemma {:induction false} CountAntitone(kind: Kind, links: seq<Link>, low: nat, high: nat)
    requires low <= high
    ensures Count(kind, links, high) <= Count(kind, links, low)
  {
    if links != [] {
      CountAntitone(kind, links[..|links| - 1], low, high);
    }
  }

  /** The connections each kind of client counts: online ones that have acknowledged the
      offset, or have it in their append-only file; for WAITQUORUM, those of the quorum. */
  ghost function Counting(kind: Kind, links: seq<Link>, offset: nat): set<nat> {
    match kind
    case PlainWait => set i | 0 <= i < |links| && links[i].online && links[i].ackOff >= offset
    case WaitAof => set i | 0 <= i < |links| && links[i].online && links[i].aofOff >= offset
    case WaitQuorum => set i | 0 <= i < |links| && links[i].online && links[i].quorum && links[i].ackOff >= offset
  }

  lemma CountingSnoc(kind: Kind, links: seq<Link>, offset: nat)
    requires links != []
    ensures var n := |links| - 1;
            && n !in Counting(kind, links[..n], offset)
            && Counting(kind, links, offset) ==
               Counting(kind, links[..n], offset) + if CountsFor(kind, links[n], offset) then {n} else {}
  {
    var n := |links| - 1;
    var init := links[..n];
    assert forall i :: 0 <= i < n ==> init[i] == links[i];
    match kind
    case PlainWait =>
    case WaitAof =>
    case WaitQuorum =>
  }

  lemma {:induction false} CountIsSize(kind: Kind, links: seq<Link>, offset: nat)
    ensures Count(kind, links, offset) == |Counting(kind, links, offset)|
  {
    if links == [] {
      assert Counting(kind, links, offset) == {};
    } else {
      CountIsSize(kind, links[..|links| - 1], offset);
      CountingSnoc(kind, links, offset);
    }
  }

  /** The quorum flags say what the configured set says. */
  ghost predicate Flagged(links: seq<Link>, quorum: set<Name>) {
    forall link :: link in links && link.online ==> (link.quorum <==> link.name in quorum)
  }

  ghost predicate DistinctNames(links: seq<Link>) {
    forall i, j :: 0 <= i < j < |links| && links[i].online && links[j].online ==> links[i].name != links[j].name
  }

  /** The quorum hosts that have acknowledged the offset. */
  ghost function Acknowledged(links: seq<Link>, quorum: set<Name>, offset: nat): set<Name> {
    set link | link in links && link.online && link.ackOff >= offset && link.name in quorum :: link.name
  }

  /** One more connection adds its host's name, or nothing. */
  lemma AcknowledgedSnoc(init: seq<Link>, last: Link, quorum: set<Name>, offset: nat)
    ensures Acknowledged(init + [last], quorum, offset) ==
            Acknowledged(init, quorum, offset) +
            if last.online && last.ackOff >= offset && last.name in quorum then {last.name} else {}
  {
    var links := init + [last];
    assert forall link :: link in links <==> link in init || link == last;
  }

  lemma DistinctSnoc(init: seq<Link>, last: Link)
    requires DistinctNames(init + [last])
    ensures DistinctNames(init)
    ensures last.online ==> forall link :: link in init && link.online ==> link.name != last.name
  {
    var links := init + [last];
    forall i, j | 0 <= i < j < |init| && init[i].online && init[j].online ensures init[i].name != init[j].name {
      assert links[i] == init[i] && links[j] == init[j];
    }
    forall i | 0 <= i < |init| && init[i].online && last.online ensures init[i].name != last.name {
      assert links[i] == init[i] && links[|init|] == last;
    }
  }

  /** What is counted are connections; they stand for as many hosts of the quorum set
      when no two of them announce the same name, and never for fewer. */
  lemma {:induction false} CountedHosts(links: seq<Link>, quorum: set<Name>, offset: nat)
    requires Flagged(links, quorum)
    ensures |Acknowledged(links, quorum, offset)| <= Count(WaitQuorum, links, offset)
    ensures DistinctNames(links) ==> |Acknowledged(links, quorum, offset)| == Count(WaitQuorum, links, offset)
  {
    if links != [] {
      var init, last := links[..|links| - 1], links[|links| - 1];
      assert links == init + [last];
      assert last in links;
      CountedHosts(init, quorum, offset);
      AcknowledgedSnoc(init, last, quorum, offset);
      if DistinctNames(links) {
        DistinctSnoc(init, last);
      }
    }
  }

  // ----- one round over the blocked clients -----

  /** The six variables processClientsWaitingReplicas carries from client to client. */
  datatype Last = Last(offset: nat, num: nat, aofOffset: nat, aofNum: nat, quorumOffset: nat, quorumNum: nat)

  const NoneYet := Last(0, 0, 0, 0, 0, 0)

  predicate Reusable(offset: nat, num: nat, w: Waiter) {
    offset != 0 && offset >= w.offset && num >= w.needed
  }

  /** The branches that reuse an earlier client's count. */
  function Shortcut(l: Last, w: Waiter): Option<nat> {
    if w.kind.WaitQuorum? && Reusable(l.quorumOffset, l.quorumNum, w) then Some(l.quorumNum)
    else if !w.kind.WaitAof? && Reusable(l.offset, l.num, w) then Some(l.num)
    else if w.kind.WaitAof? && Reusable(l.aofOffset, l.aofNum, w) then Some(l.aofNum)
    else None
  }

  predicate Released(links: seq<Link>, l: Last, w: Waiter) {
    Shortcut(l, w).Some? || Count(w.kind, links, w.offset) >= w.needed
  }

  function Reply(links: seq<Link>, l: Last, w: Waiter): nat {
    match Shortcut(l, w)
    case Some(n) => n
    case None => Count(w.kind, links, w.offset)
  }

  function Remember(links: seq<Link>, l: Last, w: Waiter): Last {
    var n := Count(w.kind, links, w.offset);
    if Shortcut(l, w).Some? || n < w.needed then l
    else match w.kind
      case WaitAof => l.(aofOffset := w.offset, aofNum := n)
      case WaitQuorum => l.(quorumOffset := w.offset, quorumNum := n)
      case PlainWait => l.(offset := w.offset, num := n)
  }

  function LastAfter(links: seq<Link>, ws: seq<Waiter>): Last {
    if ws == [] then NoneYet
    else Remember(links, LastAfter(links, ws[..|ws| - 1]), ws[|ws| - 1])
  }

  ghost predicate ReleasedAt(links: seq<Link>, ws: seq<Waiter>, i: nat)
    requires i < |ws|
  {
    Released(links, LastAfter(links, ws[..i]), ws[i])
  }

  /** An earlier plain WAIT whose count a WAITQUORUM client at the same or a smaller
      offset may be given. */
  ghost predicate Shadowed(ws: seq<Waiter>, i: nat)
    requires i < |ws|
  {
    exists j :: 0 <= j < i && ws[j].kind.PlainWait? && ws[j].offset > 0 && ws[j].offset >= ws[i].offset
  }

  /** What is remembered are true counts, and the remembered plain offset is that of
      some plain WAIT seen so far. */
  lemma {:induction false} RememberedTruly(links: seq<Link>, ws: seq<Waiter>)
    ensures var l := LastAfter(links, ws);
            && (l.quorumOffset != 0 ==> l.quorumNum == Count(WaitQuorum, links, l.quorumOffset))
            && (l.aofOffset != 0 ==> l.aofNum == Count(WaitAof, links, l.aofOffset))
            && (l.offset != 0 ==> l.num == Count(PlainWait, links, l.offset))
            && (l.offset != 0 ==> exists j :: 0 <= j < |ws| && ws[j].kind.PlainWait? && ws[j].offset == l.offset)
  {
    if ws != [] {
      var init := ws[..|ws| - 1];
      RememberedTruly(links, init);
      var l := LastAfter(links, ws);
      if l.offset != 0 {
        if l.offset == LastAfter(links, init).offset {
          var j :| 0 <= j < |init| && init[j].kind.PlainWait? && init[j].offset == l.offset;
          assert ws[j] == init[j];
        } else {
          assert ws[|ws| - 1].offset == l.offset;
        }
      }
    }
  }

  /** A plain count can only be reused for a client that is shadowed. */
  lemma ReuseIsShadow(links: seq<Link>, ws: seq<Waiter>, i: nat)
    requires i < |ws| && LastAfter(links, ws[..i]).offset != 0 && LastAfter(links, ws[..i]).offset >= ws[i].offset
    ensures Shadowed(ws, i)
  {
    RememberedTruly(links, ws[..i]);
    var j :| 0 <= j < i && ws[..i][j].kind.PlainWait? && ws[..i][j].offset == LastAfter(links, ws[..i]).offset;
    assert ws[j] == ws[..i][j];
  }

  /** A WAITQUORUM client that is not shadowed is released exactly when enough quorum
      replicas have acknowledged its offset. */
  lemma QuorumReleaseIsExact(links: seq<Link>, ws: seq<Waiter>, i: nat)
    requires i < |ws| && ws[i].kind.WaitQuorum?
    ensures Count(WaitQuorum, links, ws[i].offset) >= ws[i].needed ==> ReleasedAt(links, ws, i)
    ensures ReleasedAt(links, ws, i) ==> Count(WaitQuorum, links, ws[i].offset) >= ws[i].needed || Shadowed(ws, i)
  {
    var l := LastAfter(links, ws[..i]);
    RememberedTruly(links, ws[..i]);
    if Reusable(l.quorumOffset, l.quorumNum, ws[i]) {
      CountAntitone(WaitQuorum, links, ws[i].offset, l.quorumOffset);
    } else if Reusable(l.offset, l.num, ws[i]) {
      ReuseIsShadow(links, ws, i);
    }
  }

  /** The number r is the count of the kind at an offset that is no smaller, so it is not
      above the count at the client's own, and it is what the client waits for. */
  ghost predicate GoodReply(links: seq<Link>, kind: Kind, w: Waiter, r: nat) {
    && w.needed <= r <= Count(kind, links, w.offset)
    && exists offset: nat :: offset >= w.offset && r == Count(kind, links, offset)
  }

  /** Plain and AOF clients are released exactly when their count is reached. */
  lemma PlainReleaseIsExact(links: seq<Link>, ws: seq<Waiter>, i: nat)
    requires i < |ws| && !ws[i].kind.WaitQuorum?
    ensures ReleasedAt(links, ws, i) <==> Count(ws[i].kind, links, ws[i].offset) >= ws[i].needed
  {
    var l := LastAfter(links, ws[..i]);
    RememberedTruly(links, ws[..i]);
    if ws[i].kind.WaitAof? && Reusable(l.aofOffset, l.aofNum, ws[i]) {
      CountAntitone(WaitAof, links, ws[i].offset, l.aofOffset);
    }
    if ws[i].kind.PlainWait? && Reusable(l.offset, l.num, ws[i]) {
      CountAntitone(PlainWait, links, ws[i].offset, l.offset);
    }
  }

  /** What a released client is told: a count of its own kind, or, for a shadowed
      WAITQUORUM client, possibly a plain one. */
  lemma ReplyIsCount(links: seq<Link>, ws: seq<Waiter>, i: nat)
    requires i < |ws| && ReleasedAt(links, ws, i)
    ensures var r := Reply(links, LastAfter(links, ws[..i]), ws[i]);
            || GoodReply(links, ws[i].kind, ws[i], r)
            || (ws[i].kind.WaitQuorum? && Shadowed(ws, i) && GoodReply(links, PlainWait, ws[i], r))
  {
    var l, w := LastAfter(links, ws[..i]), ws[i];
    RememberedTruly(links, ws[..i]);
    if w.kind.WaitQuorum? && Reusable(l.quorumOffset, l.quorumNum, w) {
      CountAntitone(WaitQuorum, links, w.offset, l.quorumOffset);
      assert GoodReply(links, WaitQuorum, w, l.quorumNum);
    } else if !w.kind.WaitAof? && Reusable(l.offset, l.num, w) {
      CountAntitone(PlainWait, links, w.offset, l.offset);
      assert GoodReply(links, PlainWait, w, l.num);
      ReuseIsShadow(links, ws, i);
    } else if w.kind.WaitAof? && Reusable(l.aofOffset, l.aofNum, w) {
      CountAntitone(WaitAof, links, w.offset, l.aofOffset);
      assert GoodReply(links, WaitAof, w, l.aofNum);
    } else {
      assert GoodReply(links, w.kind, w, Count(w.kind, links, w.offset));
    }
  }

  // ----- the shadowed clients -----

  /** n connections, none of them of the quorum, that have acknowledged everything up to top. */
  function Outsiders(n: nat, top: nat): seq<Link> {
    seq(n, _ => Link("", true, false, top, top))
  }

  lemma {:induction false} OutsidersCount(n: nat, top: nat, offset: nat)
    requires offset <= top
    ensures Count(PlainWait, Outsiders(n, top), offset) == n
    ensures Count(WaitQuorum, Outsiders(n, top), offset) == 0
  {
    if n > 0 {
      assert Outsiders(n, top)[..n - 1] == Outsiders(n - 1, top);
      OutsidersCount(n - 1, top, offset);
    }
  }

  ghost predicate Within(ws: seq<Waiter>, n: nat, top: nat) {
    forall w :: w in ws ==> w.needed <= n && w.offset <= top
  }

  lemma {:induction false} Bounds(ws: seq<Waiter>) returns (n: nat, top: nat)
    ensures Within(ws, n, top)
  {
    n, top := 0, 0;
    if ws != [] {
      n, top := Bounds(ws[1..]);
      n := if ws[0].needed > n then ws[0].needed else n;
      top := if ws[0].offset > top then ws[0].offset else top;
    }
  }

  /** With enough outsiders, the remembered plain count covers every plain WAIT seen, and
      no quorum count above zero is remembered. */
  lemma {:induction false} OutsidersRemembered(ws: seq<Waiter>, n: nat, top: nat)
    requires Within(ws, n, top)
    ensures var l := LastAfter(Outsiders(n, top), ws);
            && (l.offset != 0 ==> l.num == n) && l.quorumNum == 0
            && forall j :: 0 <= j < |ws| && ws[j].kind.PlainWait? ==> l.offset >= ws[j].offset
  {
    if ws != [] {
      var init, w := ws[..|ws| - 1], ws[|ws| - 1];
      OutsidersRemembered(init, n, top);
      OutsidersCount(n, top, w.offset);
      var l := LastAfter(Outsiders(n, top), ws);
      forall j | 0 <= j < |ws| && ws[j].kind.PlainWait? ensures l.offset >= ws[j].offset {
        if j < |init| {
          assert init[j] == ws[j];
        }
      }
    }
  }

  /** The condition above is needed: a shadowed client is released in some state in
      which no quorum replica has acknowledged anything. */
  lemma ShadowedIsReleasedEarly(ws: seq<Waiter>, i: nat) returns (links: seq<Link>)
    requires i < |ws| && ws[i].kind.WaitQuorum? && ws[i].needed > 0 && Shadowed(ws, i)
    ensures ReleasedAt(links, ws, i) && Count(WaitQuorum, links, ws[i].offset) == 0
  {
    var n, top := Bounds(ws);
    links := Outsiders(n, top);
    OutsidersRemembered(ws[..i], n, top);
    OutsidersCount(n, top, ws[i].offset);
    var j :| 0 <= j < i && ws[j].kind.PlainWait? && ws[j].offset > 0 && ws[j].offset >= ws[i].offset;
    assert ws[..i][j] == ws[j];
    assert ws[i] in ws;
  }

  /** So a blocked WAITQUORUM client can be told about acknowledgements its quorum never
      gave exactly when a plain WAIT stands before it at the same or a later offset. */
  lemma EarlyReleaseExact(ws: seq<Waiter>, i: nat)
    requires i < |ws| && ws[i].kind.WaitQuorum? && ws[i].needed > 0
    ensures (exists links :: ReleasedAt(links, ws, i) && Count(WaitQuorum, links, ws[i].offset) < ws[i].needed)
            <==> Shadowed(ws, i)
  {
    if Shadowed(ws, i) {
      var links := ShadowedIsReleasedEarly(ws, i);
      assert ReleasedAt(links, ws, i) && Count(WaitQuorum, links, ws[i].offset) < ws[i].needed;
    } else {
      forall links | ReleasedAt(links, ws, i) ensures Count(WaitQuorum, links, ws[i].offset) >= ws[i].needed {
        QuorumReleaseIsExact(links, ws, i);
      }
    }
  }

  // ----- the server -----

  function Views(replicas: seq<Replica>): (links: seq<Link>)
    reads replicas
    ensures |links| == |replicas|
    ensures forall i :: 0 <= i < |replicas| ==> links[i] == replicas[i].View()
  {
    seq(|replicas|, i requires 0 <= i < |replicas| reads replicas => replicas[i].View())
  }

  /** The clients that stay blocked, in their order. */
  function StillWaiting(ws: seq<Waiter>, replies: map<nat, nat>): seq<Waiter> {
    if ws == [] then []
    else StillWaiting(ws[..|ws| - 1], replies) + if |ws| - 1 in replies then [] else [ws[|ws| - 1]]
  }

  class Server {
    var replicas: seq<Replica>
    var quorumReplicas: set<Name>
    var quorumReplicasToWrite: nat
    var isReplica: bool
    var waiting: seq<Waiter>

    ghost predicate Valid() reads this, replicas {
      NoDup(replicas) && Flagged(Views(replicas), quorumReplicas)
    }

    constructor ()
      ensures Valid() && replicas == [] && quorumReplicas == {} && quorumReplicasToWrite == 0 && waiting == []
    {
      replicas, quorumReplicas, quorumReplicasToWrite, isReplica, waiting := [], {}, 0, false, [];
    }

    /** Recomputes the flag of every connection, and nothing else. */
    method UpdateQuorumReplicas()
      requires NoDup(replicas)
      modifies replicas
      ensures Valid()
      ensures forall r :: r in replicas ==>
                r.View() == old(r.View()).(quorum := r.online && r.name in quorumReplicas)
    {
      for i := 0 to |replicas|
        invariant forall j :: 0 <= j < i ==>
                    replicas[j].View() == old(replicas[j].View()).(quorum := replicas[j].online && replicas[j].name in quorumReplicas)
        invariant forall j :: i <= j < |replicas| ==> replicas[j].View() == old(replicas[j].View())
      {
        var replica := replicas[i];
        if !replica.online {
          replica.quorum := false;
        } else {
          replica.quorum := replica.name in quorumReplicas;
        }
      }
    }

    /** CONFIG SET quorum-replicas. A repeated name is an error, and leaves the names before
        it in the set and every flag as it was. */
    method SetConfigQuorumReplicas(names: seq<Name>) returns (ok: bool)
      requires Valid()
      modifies this`quorumReplicas, replicas
      ensures ok <==> NoDup(names)
      ensures ok ==> Valid() && quorumReplicas == SetOf(names)
      ensures ok ==> forall r :: r in replicas ==> r.View() == old(r.View()).(quorum := r.online && r.name in names)
      ensures !ok ==> forall r :: r in replicas ==> r.View() == old(r.View())
      ensures !ok ==> exists j :: 0 <= j < |names| && names[j] in names[..j] && NoDup(names[..j]) && quorumReplicas == SetOf(names[..j])
    {
      quorumReplicas := {};
      for j := 0 to |names|
        invariant quorumReplicas == SetOf(names[..j]) && NoDup(names[..j]) && replicas == old(replicas)
        invariant forall r :: r in replicas ==> r.View() == old(r.View())
      {
        if names[j] in quorumReplicas {
          RepeatedName(names, j);
          return false;
        }
        OneMoreName(names, j);
        quorumReplicas := quorumReplicas + {names[j]};
      }
      assert names[..|names|] == names;
      UpdateQuorumReplicas();
      return true;
    }

    static lemma RepeatedName(names: seq<Name>, j: nat)
      requires j < |names| && names[j] in names[..j]
      ensures !NoDup(names)
    {
      var i :| 0 <= i < j && names[..j][i] == names[j];
      assert names[i] == names[j];
    }

    static lemma OneMoreName(names: seq<Name>, j: nat)
      requires j < |names| && NoDup(names[..j]) && names[j] !in names[..j]
      ensures NoDup(names[..j + 1]) && SetOf(names[..j + 1]) == SetOf(names[..j]) + {names[j]}
    {
      assert names[..j + 1] == names[..j] + [names[j]];
    }

    /** A replica connection becomes online, and is in the quorum from then on if it is configured to be. */
    method ReplicaPutOnline(replica: Replica)
      requires Valid() && replica in replicas
      modifies replicas
      ensures Valid() && replica.online && (replica.quorum <==> replica.name in quorumReplicas)
      ensures forall r :: r in replicas && r != replica ==>
                r.online == old(r.online) && r.ackOff == old(r.ackOff) && (r.online ==> r.quorum == old(r.quorum))
    {
      replica.online := true;
      UpdateQuorumReplicas();
      assert forall r :: r in replicas ==> r.View() in Views(replicas);
    }

    /** A replica acknowledges an offset. */
    method ReplicaAck(replica: Replica, offset: nat)
      requires Valid() && replica in replicas
      modifies replica`ackOff
      ensures Valid() && replica.ackOff == if offset > old(replica.ackOff) then offset else old(replica.ackOff)
    {
      ghost var before := Views(replicas);
      if offset > replica.ackOff {
        replica.ackOff := offset;
      }
      forall link | link in Views(replicas) && link.online ensures link.quorum <==> link.name in quorumReplicas {
        var i :| 0 <= i < |replicas| && link == replicas[i].View();
        assert before[i] in before;
      }
    }

    method CountAcks(kind: Kind, offset: nat) returns (count: nat)
      ensures count == Count(kind, Views(replicas), offset)
    {
      count := 0;
      ghost var links := Views(replicas);
      for i := 0 to |replicas|
        invariant count == Count(kind, links[..i], offset)
      {
        assert links[..i + 1][..i] == links[..i];
        if CountsFor(kind, replicas[i].View(), offset) {
          count := count + 1;
        }
      }
      assert links[..|replicas|] == links;
    }

    /** WAITQUORUM. An answer that reaches the configured number means that many hosts
        of the quorum set hold the offset, if connections have distinct names. A
        smaller answer is only given where blocking is not allowed, and a replica
        refuses the command. */
    method WaitQuorumCommand(woff: nat, denyBlocking: bool) returns (answer: Answer)
      requires Valid()
      modifies this`waiting
      ensures Valid()
      ensures answer.Refused? <==> isReplica
      ensures answer.Replied? ==> answer.acks == Count(WaitQuorum, Views(replicas), woff)
      ensures answer.Replied? && answer.acks >= quorumReplicasToWrite && DistinctNames(Views(replicas)) ==>
                |Acknowledged(Views(replicas), quorumReplicas, woff)| >= quorumReplicasToWrite
      ensures answer.Replied? && answer.acks < quorumReplicasToWrite ==> denyBlocking
      ensures answer.Blocked? ==> !denyBlocking && quorumReplicasToWrite > Count(WaitQuorum, Views(replicas), woff)
      ensures waiting == if answer.Blocked? then old(waiting) + [Waiter(WaitQuorum, woff, quorumReplicasToWrite)] else old(waiting)
    {
      if isReplica {
        return Refused;
      }
      CountedHosts(Views(replicas), quorumReplicas, woff);
      var ackReplicas := CountAcks(WaitQuorum, woff);
      if ackReplicas >= quorumReplicasToWrite || denyBlocking {
        return Replied(ackReplicas);
      }
      waiting := waiting + [Waiter(WaitQuorum, woff, quorumReplicasToWrite)];
      return Blocked;
    }

    /** One client of the round: its reply if it is released, and what is remembered. */
    method ProcessClient(l: Last, w: Waiter) returns (reply: Option<nat>, l': Last)
      ensures reply == if Released(Views(replicas), l, w) then Some(Reply(Views(replicas), l, w)) else None
      ensures l' == Remember(Views(replicas), l, w)
    {
      l' := l;
      reply := Shortcut(l, w);
      if reply.None? {
        var numReplicas := CountAcks(w.kind, w.offset);
        if numReplicas >= w.needed {
          reply := Some(numReplicas);
          match w.kind
          case WaitAof => l' := l.(aofOffset := w.offset, aofNum := numReplicas);
          case WaitQuorum => l' := l.(quorumOffset := w.offset, quorumNum := numReplicas);
          case PlainWait => l' := l.(offset := w.offset, num := numReplicas);
        }
      }
    }

    /** Releases and answers the blocked clients whose numbers are reached, each one once,
        and leaves the others blocked. */
    method ProcessClientsWaitingReplicas() returns (replies: map<nat, nat>)
      modifies this`waiting
      ensures Answered(Views(replicas), old(waiting), replies, |old(waiting)|)
      ensures waiting == StillWaiting(old(waiting), replies)
      ensures forall i :: 0 <= i < |old(waiting)| && old(waiting)[i].kind.WaitQuorum? && !Shadowed(old(waiting), i) ==>
                (i in replies <==> Count(WaitQuorum, Views(replicas), old(waiting)[i].offset) >= old(waiting)[i].needed)
      ensures forall i :: 0 <= i < |old(waiting)| && !old(waiting)[i].kind.WaitQuorum? ==>
                (i in replies <==> Count(old(waiting)[i].kind, Views(replicas), old(waiting)[i].offset) >= old(waiting)[i].needed)
      ensures forall i :: i in replies && i < |old(waiting)| && !(old(waiting)[i].kind.WaitQuorum? && Shadowed(old(waiting), i)) ==>
                GoodReply(Views(replicas), old(waiting)[i].kind, old(waiting)[i], replies[i])
    {
      hide Released, Reply, Remember, Views, Shadowed, Answered, StillWaiting, LastAfter;
      ghost var links := Views(replicas);
      var ws := waiting;
      var l := NoneYet;
      replies := map[];
      waiting := [];
      NobodyYet(links, ws);
      for i := 0 to |ws|
        invariant links == Views(replicas) && l == LastAfter(links, ws[..i])
        invariant Answered(links, ws, replies, i)
        invariant waiting == StillWaiting(ws[..i], replies)
      {
        var reply;
        ghost var before := replies;
        reply, l := ProcessClient(l, ws[i]);
        replies, waiting := if reply.Some? then replies[i := reply.value] else replies,
                            if reply.Some? then waiting else waiting + [ws[i]];
        OneMoreAnswered(links, ws, before, replies, i);
      }
      assert ws[..|ws|] == ws;
      RoundIsExact(links, ws, replies);
    }
  }

  lemma NobodyYet(links: seq<Link>, ws: seq<Waiter>)
    ensures LastAfter(links, ws[..0]) == NoneYet && Answered(links, ws, map[], 0) && StillWaiting(ws[..0], map[]) == []
  {
  }

  lemma OneMoreAnswered(links: seq<Link>, ws: seq<Waiter>, before: map<nat, nat>, replies: map<nat, nat>, i: nat)
    requires i < |ws| && Answered(links, ws, before, i)
    requires var l := LastAfter(links, ws[..i]);
             replies == if Released(links, l, ws[i]) then before[i := Reply(links, l, ws[i])] else before
    ensures Answered(links, ws, replies, i + 1)
    ensures i in replies <==> Released(links, LastAfter(links, ws[..i]), ws[i])
    ensures LastAfter(links, ws[..i + 1]) == Remember(links, LastAfter(links, ws[..i]), ws[i])
    ensures StillWaiting(ws[..i + 1], replies) == StillWaiting(ws[..i], before) + if i in replies then [] else [ws[i]]
  {
    hide Released, Reply, Remember;
    assert ws[..i + 1][..i] == ws[..i];
    StillWaitingSame(ws[..i], before, replies);
  }

  lemma RoundIsExact(links: seq<Link>, ws: seq<Waiter>, replies: map<nat, nat>)
    requires Answered(links, ws, replies, |ws|)
    ensures forall i :: 0 <= i < |ws| && ws[i].kind.WaitQuorum? && !Shadowed(ws, i) ==>
              (i in replies <==> Count(WaitQuorum, links, ws[i].offset) >= ws[i].needed)
    ensures forall i :: 0 <= i < |ws| && !ws[i].kind.WaitQuorum? ==>
              (i in replies <==> Count(ws[i].kind, links, ws[i].offset) >= ws[i].needed)
    ensures forall i :: i in replies && i < |ws| && !(ws[i].kind.WaitQuorum? && Shadowed(ws, i)) ==>
              GoodReply(links, ws[i].kind, ws[i], replies[i])
  {
    hide Reply, ReleasedAt, Shadowed, GoodReply;
    forall i | 0 <= i < |ws| && ws[i].kind.WaitQuorum? && !Shadowed(ws, i)
      ensures i in replies <==> Count(WaitQuorum, links, ws[i].offset) >= ws[i].needed
    {
      QuorumReleaseIsExact(links, ws, i);
    }
    forall i | 0 <= i < |ws| && !ws[i].kind.WaitQuorum?
      ensures i in replies <==> Count(ws[i].kind, links, ws[i].offset) >= ws[i].needed
    {
      PlainReleaseIsExact(links, ws, i);
    }
    forall i | i in replies && i < |ws| && !(ws[i].kind.WaitQuorum? && Shadowed(ws, i))
      ensures GoodReply(links, ws[i].kind, ws[i], replies[i])
    {
      ReplyIsCount(links, ws, i);
    }
  }

  /** The first n clients have been given a reply exactly if they are released, and the right one. */
  ghost predicate Answered(links: seq<Link>, ws: seq<Waiter>, replies: map<nat, nat>, n: nat)
    requires n <= |ws|
  {
    && (forall i :: i in replies ==> i < n)
    && (forall i :: 0 <= i < n ==> (i in replies <==> ReleasedAt(links, ws, i)))
    && (forall i :: 0 <= i < n && i in replies ==> replies[i] == Reply(links, LastAfter(links, ws[..i]), ws[i]))
  }

  lemma {:induction false} StillWaitingSame(ws: seq<Waiter>, a: map<nat, nat>, b: map<nat, nat>)
    requires forall i :: 0 <= i < |ws| ==> (i in a <==> i in b)
    ensures StillWaiting(ws, a) == StillWaiting(ws, b)
  {
    if ws != [] {
      StillWaitingSame(ws[..|ws| - 1], a, b);
    }
  }
}
