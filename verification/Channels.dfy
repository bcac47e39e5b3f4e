/** Receiving replies by tag. A channel hands over whatever arrives next; a buffer in
    front of it keeps what was meant for other requests. A pool asks every channel, and
    a request waits until its replies are enough, or it has heard from as many as there
    are channels. */
module Channels {
  import opened Timestamps
  import opened Protocol

  type Tag = nat
  type ChannelId = nat
  type NetworkError = nat

  datatype Msg = Msg(tag: Tag, body: Response)

  /** What the underlying channel answers to one attempt to receive. */
  datatype Incoming = Arrived(msg: Msg) | Empty | Broken(error: NetworkError)

  /** What a caller gets who asks for a tag. */
  datatype Answer = Got(msg: Msg) | Nothing | Error(error: NetworkError)

  /** `script` is what the network does, attempt after attempt; then it stays silent. */
  datatype Chan = Chan(script: seq<Incoming>, next: nat, buffered: map<Tag, Msg>)

  function Pending(c: Chan): Incoming {
    if c.next < |c.script| then c.script[c.next] else Empty
  }

  function Recv(c: Chan, tag: Tag): (Chan, Answer) {
    if tag in c.buffered then (c.(buffered := c.buffered - {tag}), Got(c.buffered[tag]))
    else
      var c1 := c.(next := c.next + 1);
      match Pending(c)
      case Arrived(m) => if m.tag == tag then (c1, Got(m)) else (c1.(buffered := c.buffered[m.tag := m]), Nothing)
      case Empty => (c1, Nothing)
      case Broken(e) => (c1, Error(e))
  }

  /** The next attempt to receive has this outcome. */
  predicate Comes(c: Chan, incoming: Incoming) {
    c.next < |c.script| && c.script[c.next] == incoming
  }

  /** What a call for `tag` answers: the message waiting under the tag, or else what the
      one attempt to receive brings. A message of another tag is no answer, nor an error. */
  ghost predicate AnswersCall(c: Chan, tag: Tag, r: Answer) {
    && (forall m :: r == Got(m) <==>
          if tag in c.buffered then m == c.buffered[tag] else Comes(c, Arrived(m)) && m.tag == tag)
    && (forall e :: r == Error(e) <==> tag !in c.buffered && Comes(c, Broken(e)))
  }

  /** What it leaves: a buffered answer leaves the buffer and nothing is received; otherwise
      there was one attempt, and what came for another tag waits under that tag. */
  ghost predicate LeftByCall(c: Chan, tag: Tag, c1: Chan) {
    && c1.script == c.script
    && c1.next == (if tag in c.buffered then c.next else c.next + 1)
    && tag !in c1.buffered
    && (forall t :: t in c1.buffered <==> t != tag && (t in c.buffered || StoredFor(c, tag, t)))
    && (forall t :: t in c1.buffered ==>
          c1.buffered[t] == if StoredFor(c, tag, t) then c.script[c.next].msg else c.buffered[t])
  }

  /** A call for `tag` receives a message of the other tag `t`. */
  predicate StoredFor(c: Chan, tag: Tag, t: Tag) {
    tag !in c.buffered && t != tag && c.next < |c.script| && c.script[c.next].Arrived? && c.script[c.next].msg.tag == t
  }

  lemma RecvMeans(c: Chan, tag: Tag)
    ensures AnswersCall(c, tag, Recv(c, tag).1) && LeftByCall(c, tag, Recv(c, tag).0)
  {
  }

  /** Messages wait under their own tags. */
  predicate WellTagged(c: Chan) {
    forall t :: t in c.buffered ==> c.buffered[t].tag == t
  }

  class BufChannel {
    var script: seq<Incoming>
    var next: nat
    var buffered: map<Tag, Msg>

    function Contents(): Chan
      reads this
    {
      Chan(script, next, buffered)
    }

    constructor (script: seq<Incoming>)
      ensures Contents() == Chan(script, 0, map[])
    {
      this.script, next, buffered := script, 0, map[];
    }

    method TryRecv() returns (m: Incoming)
      modifies this`next
      ensures m == Pending(old(Contents())) && next == old(next) + 1
    {
      m := if next < |script| then script[next] else Empty;
      next := next + 1;
    }

    /** Only ever answers with a message of the tag asked for. */
    method TryRecvTag(tag: Tag) returns (r: Answer)
      requires WellTagged(Contents())
      modifies this`next, this`buffered
      ensures (Contents(), r) == Recv(old(Contents()), tag)
      ensures AnswersCall(old(Contents()), tag, r) && LeftByCall(old(Contents()), tag, Contents())
      ensures r.Got? ==> r.msg.tag == tag
      ensures WellTagged(Contents())
    {
      RecvMeans(Contents(), tag);
      if tag in buffered {
        r := Got(buffered[tag]);
        buffered := buffered - {tag};
        return;
      }
      var incoming := TryRecv();
      match incoming {
        case Arrived(m) =>
          if m.tag == tag {
            r := Got(m);
          } else {
            buffered := buffered[m.tag := m];
            r := Nothing;
          }
        case Empty => r := Nothing;
        case Broken(e) => r := Error(e);
      }
    }
  }

  // --------------------------------------- any interleaving of callers

  /** A channel with its callers: `asking` found nothing in the buffer and have yet to
      receive; `flying` was received for somebody else and has yet to be buffered. The
      buffer is locked for the lookup and again for the store, not in between. */
  datatype Trace = Trace(chan: Chan, asking: multiset<Tag>, flying: multiset<Msg>, returned: seq<Msg>, lost: seq<Msg>)

  datatype Action = Lookup(tag: Tag) | Receive(tag: Tag) | Store(msg: Msg)

  predicate Enabled(t: Trace, a: Action) {
    match a
    case Lookup(_) => true
    case Receive(tag) => tag in t.asking
    case Store(m) => m in t.flying
  }

  function LookUp(t: Trace, tag: Tag): Trace {
    if tag in t.chan.buffered then
      t.(chan := t.chan.(buffered := t.chan.buffered - {tag}), returned := t.returned + [t.chan.buffered[tag]])
    else t.(asking := t.asking[tag := t.asking[tag] + 1])
  }

  function ReceiveFor(t: Trace, tag: Tag): Trace
    requires tag in t.asking
  {
    var t1 := t.(chan := t.chan.(next := t.chan.next + 1), asking := t.asking[tag := t.asking[tag] - 1]);
    match Pending(t.chan)
    case Arrived(m) => if m.tag == tag then t1.(returned := t.returned + [m])
        else t1.(flying := t.flying[m := t.flying[m] + 1])
    case _ => t1
  }

  function StoreAway(t: Trace, m: Msg): Trace
    requires m in t.flying
  {
    t.(chan := t.chan.(buffered := t.chan.buffered[m.tag := m]),
       flying := t.flying[m := t.flying[m] - 1],
       lost := if m.tag in t.chan.buffered then t.lost + [t.chan.buffered[m.tag]] else t.lost)
  }

  function Act(t: Trace, a: Action): Trace
    requires Enabled(t, a)
  {
    match a
    case Lookup(tag) => LookUp(t, tag)
    case Receive(tag) => ReceiveFor(t, tag)
    case Store(m) => StoreAway(t, m)
  }

  /** The callers' actions in some order, from a new channel. */
  ghost predicate IsInterleaving(ts: seq<Trace>, actions: seq<Action>) {
    && |ts| == |actions| + 1
    && ts[0] == Trace(Chan(ts[0].chan.script, 0, map[]), multiset{}, multiset{}, [], [])
    && forall n :: 0 <= n < |actions| ==> Enabled(ts[n], actions[n]) && ts[n + 1] == Act(ts[n], actions[n])
  }

  /** The trace after a caller's actions when nobody comes between them. */
  function Alone(t: Trace, tag: Tag): Trace {
    if tag in t.chan.buffered then LookUp(t, tag)
    else
      var t2 := ReceiveFor(LookUp(t, tag), tag);
      if Pending(t.chan).Arrived? && Pending(t.chan).msg.tag != tag then StoreAway(t2, Pending(t.chan).msg) else t2
  }

  /** They are enabled one after the other, and make the call `Recv`. */
  lemma UndisturbedCall(t: Trace, tag: Tag)
    ensures
      var (c, r) := Recv(t.chan, tag);
      var end := Alone(t, tag);
      && end.chan == c && end.asking == t.asking && end.flying == t.flying
      && end.returned == if r.Got? then t.returned + [r.msg] else t.returned
  {
  }

  /** The messages among the first `n` answers of the underlying channel. */
  function Received(script: seq<Incoming>, n: nat): seq<Msg> {
    if n == 0 then []
    else if n <= |script| && script[n - 1].Arrived? then Received(script, n - 1) + [script[n - 1].msg]
    else Received(script, n - 1)
  }

  /** How often a message occurs. */
  function Count(ms: seq<Msg>, m: Msg): nat {
    if ms == [] then 0 else Count(ms[..|ms| - 1], m) + if ms[|ms| - 1] == m then 1 else 0
  }

  lemma CountAdd(ms: seq<Msg>, x: Msg, m: Msg)
    ensures Count(ms + [x], m) == Count(ms, m) + if x == m then 1 else 0
  {
    assert (ms + [x])[..|ms|] == ms;
  }

  lemma {:induction false} CountPositive(ms: seq<Msg>, m: Msg)
    ensures Count(ms, m) > 0 <==> m in ms
  {
    if ms != [] {
      CountPositive(ms[..|ms| - 1], m);
      assert ms == ms[..|ms| - 1] + [ms[|ms| - 1]];
    }
  }

  function Held(c: Chan, m: Msg): nat {
    if m.tag in c.buffered && c.buffered[m.tag] == m then 1 else 0
  }

  /** Every arrival of a message is accounted for, exactly once. */
  ghost predicate Conserved(t: Trace, m: Msg) {
    Count(Received(t.chan.script, t.chan.next), m) ==
        Count(t.returned, m) + Count(t.lost, m) + Held(t.chan, m) + t.flying[m]
  }

  ghost predicate TraceInv(t: Trace) {
    && WellTagged(t.chan)
    && (forall m :: Conserved(t, m))
  }

  lemma LookupConserves(t: Trace, tag: Tag, m: Msg)
    requires WellTagged(t.chan) && Conserved(t, m)
    ensures WellTagged(LookUp(t, tag).chan) && Conserved(LookUp(t, tag), m)
  {
    if tag in t.chan.buffered {
      CountAdd(t.returned, t.chan.buffered[tag], m);
    }
  }

  lemma ReceivedAdds(c: Chan, m: Msg)
    ensures Count(Received(c.script, c.next + 1), m)
         == Count(Received(c.script, c.next), m) + if Pending(c) == Arrived(m) then 1 else 0
  {
    if Pending(c).Arrived? {
      CountAdd(Received(c.script, c.next), Pending(c).msg, m);
    }
  }

  lemma ReceiveCounts(t: Trace, tag: Tag, m: Msg)
    requires tag in t.asking
    ensures
      var t1 := ReceiveFor(t, tag);
      && t1.chan == t.chan.(next := t.chan.next + 1) && t1.lost == t.lost
      && Count(t1.returned, m) + t1.flying[m]
         == Count(t.returned, m) + t.flying[m] + if Pending(t.chan) == Arrived(m) then 1 else 0
  {
    if Pending(t.chan).Arrived? && Pending(t.chan).msg.tag == tag {
      CountAdd(t.returned, Pending(t.chan).msg, m);
    }
  }

  lemma ReceiveConserves(t: Trace, tag: Tag, m: Msg)
    requires WellTagged(t.chan) && Conserved(t, m) && tag in t.asking
    ensures WellTagged(ReceiveFor(t, tag).chan) && Conserved(ReceiveFor(t, tag), m)
  {
    ReceivedAdds(t.chan, m);
    ReceiveCounts(t, tag, m);
  }

  lemma StoreConserves(t: Trace, x: Msg, m: Msg)
    requires WellTagged(t.chan) && Conserved(t, m) && x in t.flying
    ensures WellTagged(StoreAway(t, x).chan) && Conserved(StoreAway(t, x), m)
  {
    if x.tag in t.chan.buffered {
      CountAdd(t.lost, t.chan.buffered[x.tag], m);
    }
  }

  lemma ActConserves(t: Trace, a: Action)
    requires TraceInv(t) && Enabled(t, a)
    ensures TraceInv(Act(t, a))
  {
    forall m ensures WellTagged(Act(t, a).chan) && Conserved(Act(t, a), m) {
      assert Conserved(t, m);
      match a
      case Lookup(tag) => LookupConserves(t, tag, m);
      case Receive(tag) => ReceiveConserves(t, tag, m);
      case Store(x) => StoreConserves(t, x, m);
    }
    assert Conserved(Act(t, a), Msg(0, WriteResponse(DEFAULT)));
  }

  /** Every message taken from the channel was returned, is buffered under its tag, is on
      its way to the buffer, or was overwritten: each exactly as often as it arrived. */
  lemma {:induction false} NothingVanishes(ts: seq<Trace>, actions: seq<Action>, n: nat)
    requires IsInterleaving(ts, actions) && n < |ts|
    ensures TraceInv(ts[n]) && ts[n].chan.script == ts[0].chan.script
  {
    if n == 0 {
      forall m ensures Conserved(ts[0], m) {}
    } else {
      NothingVanishes(ts, actions, n - 1);
      ActConserves(ts[n - 1], actions[n - 1]);
    }
  }

  // ------------------------------------------------------- what gets lost

  /** A message is put in the buffer while another of its tag still waits there. */
  predicate Overwrites(t: Trace, a: Action) {
    a.Store? && a.msg.tag in t.chan.buffered
  }

  ghost predicate OverwritesAt(ts: seq<Trace>, actions: seq<Action>, n: nat) {
    n < |actions| && n < |ts| && Overwrites(ts[n], actions[n])
  }

  /** Nothing is lost exactly when nobody stores a message under an occupied tag. */
  lemma {:induction false} NothingLostIff(ts: seq<Trace>, actions: seq<Action>, n: nat)
    requires IsInterleaving(ts, actions) && n < |ts|
    ensures ts[n].lost == [] <==> forall k: nat :: k < n ==> !OverwritesAt(ts, actions, k)
  {
    if n > 0 {
      NothingLostIff(ts, actions, n - 1);
      assert OverwritesAt(ts, actions, n - 1) <==> ts[n].lost != ts[n - 1].lost;
      assert |ts[n].lost| >= |ts[n - 1].lost|;
    }
  }

  ghost predicate DistinctTags(ms: seq<Msg>) {
    forall i, j :: 0 <= i < j < |ms| ==> ms[i].tag != ms[j].tag
  }

  lemma {:induction false} ReceivedGrows(script: seq<Incoming>, m: nat, n: nat)
    requires m <= n
    ensures Received(script, m) <= Received(script, n)
    decreases n - m
  {
    if m < n {
      ReceivedGrows(script, m, n - 1);
    }
  }

  lemma {:induction false} DistinctCount(ms: seq<Msg>, m: Msg)
    requires DistinctTags(ms)
    ensures Count(ms, m) <= 1
  {
    if ms != [] {
      DistinctCount(ms[..|ms| - 1], m);
      CountPositive(ms[..|ms| - 1], m);
    }
  }

  /** An overwriting store has received two messages with the same tag before it. */
  lemma OverwritingNeedsTwo(t: Trace, x: Msg)
    requires TraceInv(t) && x in t.flying && x.tag in t.chan.buffered
    ensures !DistinctTags(Received(t.chan.script, t.chan.next))
  {
    var ms, y := Received(t.chan.script, t.chan.next), t.chan.buffered[x.tag];
    assert Conserved(t, x) && Conserved(t, y);
    if x == y {
      TwiceIsNotDistinct(ms, x);
    } else {
      CountPositive(ms, x);
      CountPositive(ms, y);
      var i :| 0 <= i < |ms| && ms[i] == x;
      var j :| 0 <= j < |ms| && ms[j] == y;
      assert i != j && ms[i].tag == ms[j].tag;
    }
  }

  lemma TwiceIsNotDistinct(ms: seq<Msg>, m: Msg)
    requires Count(ms, m) > 1
    ensures !DistinctTags(ms)
  {
    if DistinctTags(ms) {
      DistinctCount(ms, m);
    }
  }

  lemma {:induction false} ChannelAdvances(ts: seq<Trace>, actions: seq<Action>, m: nat, n: nat)
    requires IsInterleaving(ts, actions) && m <= n < |ts|
    ensures ts[m].chan.next <= ts[n].chan.next && ts[m].chan.script == ts[n].chan.script
    decreases n - m
  {
    if m < n {
      ChannelAdvances(ts, actions, m, n - 1);
    }
  }

  /** With distinct tags nothing is ever lost, whoever comes between: every message that
      was taken from the channel went to one caller, or is in the buffer, or is on its
      way there, and only one of these. */
  lemma DistinctTagsLoseNothing(ts: seq<Trace>, actions: seq<Action>, n: nat)
    requires IsInterleaving(ts, actions) && n < |ts|
    requires DistinctTags(Received(ts[n].chan.script, ts[n].chan.next))
    ensures ts[n].lost == []
    ensures
      var t := ts[n];
      forall m :: m in Received(t.chan.script, t.chan.next) ==>
          Count(t.returned, m) + Held(t.chan, m) + t.flying[m] == 1
  {
    var ms := Received(ts[n].chan.script, ts[n].chan.next);
    forall k: nat | k < n ensures !OverwritesAt(ts, actions, k) {
      if OverwritesAt(ts, actions, k) {
        NothingVanishes(ts, actions, k);
        ChannelAdvances(ts, actions, k, n);
        ReceivedGrows(ts[n].chan.script, ts[k].chan.next, ts[n].chan.next);
        OverwritingNeedsTwo(ts[k], actions[k].msg);
        assert false;
      }
    }
    NothingLostIff(ts, actions, n);
    NothingVanishes(ts, actions, n);
    forall m | m in ms ensures Count(ts[n].returned, m) + Held(ts[n].chan, m) + ts[n].flying[m] == 1 {
      assert Conserved(ts[n], m);
      CountPositive(ms, m);
      DistinctCount(ms, m);
    }
  }

  lemma Extend(ts: seq<Trace>, actions: seq<Action>, a: Action)
    requires IsInterleaving(ts, actions) && Enabled(ts[|actions|], a)
    ensures IsInterleaving(ts + [Act(ts[|actions|], a)], actions + [a])
  {
  }

  /** A message arrives while its caller is not asking. */
  lemma StrayArrives(ts: seq<Trace>, actions: seq<Action>, other: Tag, m: Msg)
    returns (ts1: seq<Trace>, actions1: seq<Action>)
    requires IsInterleaving(ts, actions) && Pending(ts[|actions|].chan) == Arrived(m) && m.tag != other
    requires other !in ts[|actions|].chan.buffered
    ensures IsInterleaving(ts1, actions1) && ts1[0] == ts[0]
    ensures ts1[|actions1|] == Alone(ts[|actions|], other)
  {
    var t := ts[|actions|];
    var t1 := LookUp(t, other);
    var t2 := ReceiveFor(t1, other);
    Extend(ts, actions, Lookup(other));
    ts1, actions1 := ts + [t1], actions + [Lookup(other)];
    Extend(ts1, actions1, Receive(other));
    ts1, actions1 := ts1 + [t2], actions1 + [Receive(other)];
    Extend(ts1, actions1, Store(m));
    ts1, actions1 := ts1 + [StoreAway(t2, m)], actions1 + [Store(m)];
  }

  /** With equal tags a message can be lost: of two with one tag, the second replaces the
      first when nobody asks for them in between. */
  lemma EqualTagsLoseOne(a: Response, b: Response, tag: Tag, other: Tag) returns (ts: seq<Trace>, actions: seq<Action>)
    requires tag != other
    ensures IsInterleaving(ts, actions)
    ensures ts[0].chan.script == [Arrived(Msg(tag, a)), Arrived(Msg(tag, b))]
    ensures ts[|actions|].lost == [Msg(tag, a)] && ts[|actions|].chan.buffered == map[tag := Msg(tag, b)]
  {
    var x, y := Msg(tag, a), Msg(tag, b);
    ts, actions := [Trace(Chan([Arrived(x), Arrived(y)], 0, map[]), multiset{}, multiset{}, [], [])], [];
    ts, actions := StrayArrives(ts, actions, other, x);
    var t := ts[|actions|];
    assert t.chan == Chan([Arrived(x), Arrived(y)], 1, map[tag := x]) && t.lost == [];
    ts, actions := StrayArrives(ts, actions, other, y);
    assert ts[|actions|].chan.buffered == map[tag := y];
  }
}
