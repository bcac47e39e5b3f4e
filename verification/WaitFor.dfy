/** A client's wait for replies: it polls every channel of its pool, counts replies and
    errors, and stops when its condition holds or as many were counted as there are
    channels. */
module WaitFor {
  import opened Protocol
  import opened ProtocolInv
  import opened Channels

  /** What a client has heard: the replies in the order they were counted, which is what
      any accumulator is a function of, and the errors. */
  datatype Heard = Heard(accum: seq<(ChannelId, Msg)>, errors: map<ChannelId, NetworkError>)

  const NOTHING_HEARD := Heard([], map[])

  function Handled(accum: seq<(ChannelId, Msg)>): set<ChannelId> {
    set i | 0 <= i < |accum| :: accum[i].0
  }

  function NReceived(h: Heard): nat {
    |Handled(h.accum)| + |h.errors|
  }

  /** A channel's answer is counted: its reply joins the handled ones, or its error the
      errors; an error never undoes a reply of the same channel. */
  function Count1(h: Heard, id: ChannelId, a: Answer): (r: Heard)
    ensures Handled(r.accum) == Handled(h.accum) + if a.Got? then {id} else {}
    ensures r.errors == if a.Error? then h.errors[id := a.error] else h.errors
    ensures h.accum <= r.accum <= h.accum + if a.Got? then [(id, a.msg)] else []
  {
    match a
    case Got(m) =>
      var accum := h.accum + [(id, m)];
      assert forall i :: 0 <= i < |h.accum| ==> accum[i] == h.accum[i];
      assert accum[|h.accum|].0 == id;
      Heard(accum, h.errors)
    case Nothing => h
    case Error(e) => Heard(h.accum, h.errors[id := e])
  }

  // ----------------------------------------------------------- the pool

  /** Every channel answers one call for the tag. */
  function AnswersOf(cs: seq<Chan>, tag: Tag): (r: seq<Answer>)
    ensures |r| == |cs|
  {
    if cs == [] then [] else AnswersOf(cs[..|cs| - 1], tag) + [Recv(cs[|cs| - 1], tag).1]
  }

  function AfterPoll(cs: seq<Chan>, tag: Tag): (r: seq<Chan>)
    ensures |r| == |cs|
  {
    if cs == [] then [] else AfterPoll(cs[..|cs| - 1], tag) + [Recv(cs[|cs| - 1], tag).0]
  }

  /** Each channel answers for itself. */
  lemma {:induction false} PollAt(cs: seq<Chan>, tag: Tag, i: nat)
    requires i < |cs|
    ensures (AfterPoll(cs, tag)[i], AnswersOf(cs, tag)[i]) == Recv(cs[i], tag)
  {
    if i < |cs| - 1 {
      PollAt(cs[..|cs| - 1], tag, i);
    }
  }

  class FlawlessPool {
    const ids: seq<ChannelId>
    const pool: seq<BufChannel>

    constructor (ids: seq<ChannelId>, pool: seq<BufChannel>)
      ensures this.ids == ids && this.pool == pool
    {
      this.ids, this.pool := ids, pool;
    }

    predicate Valid() {
      && |ids| == |pool|
      && (forall i, j :: 0 <= i < j < |pool| ==> ids[i] != ids[j] && pool[i] != pool[j])
    }

    /** The channels are in the given states. */
    ghost predicate Holds(cs: seq<Chan>)
      reads pool
    {
      |cs| == |pool| && forall i :: 0 <= i < |pool| ==> pool[i].Contents() == cs[i] && WellTagged(cs[i])
    }

    /** Asks every channel once, in order. */
    method Poll(tag: Tag, ghost cs: seq<Chan>) returns (v: seq<(ChannelId, Answer)>)
      requires Valid() && Holds(cs)
      modifies pool
      ensures Holds(AfterPoll(cs, tag))
      ensures |v| == |pool| && forall i :: 0 <= i < |v| ==> v[i] == (ids[i], AnswersOf(cs, tag)[i])
    {
      v := [];
      for idx := 0 to |pool|
        invariant |v| == idx
        invariant forall i :: 0 <= i < idx ==>
          (pool[i].Contents(), v[i].1) == Recv(cs[i], tag) && v[i].0 == ids[i] && WellTagged(pool[i].Contents())
        invariant forall i :: idx <= i < |pool| ==> pool[i].Contents() == cs[i]
      {
        var res := pool[idx].TryRecvTag(tag);
        v := v + [(ids[idx], res)];
      }
      forall i | 0 <= i < |pool| ensures (AfterPoll(cs, tag)[i], AnswersOf(cs, tag)[i]) == Recv(cs[i], tag) {
        PollAt(cs, tag, i);
      }
    }
  }

  // ------------------------------------------------------------ the wait

  /** Counts the answers of a poll, in order. */
  function CountAll(h: Heard, ids: seq<ChannelId>, answers: seq<Answer>): Heard
    requires |ids| == |answers|
  {
    if ids == [] then h
    else Count1(CountAll(h, ids[..|ids| - 1], answers[..|ids| - 1]), ids[|ids| - 1], answers[|ids| - 1])
  }

  /** Replies are counted in the order of the channels, each with the channel's own id. */
  lemma {:induction false} CountedInOrder(h: Heard, ids: seq<ChannelId>, answers: seq<Answer>) returns (at: seq<nat>)
    requires |ids| == |answers|
    ensures forall i, j :: 0 <= i < j < |at| ==> at[i] < at[j]
    ensures forall i :: 0 <= i < |at| ==> at[i] < |ids|
    ensures forall n: nat :: n < |ids| ==> (n in at <==> answers[n].Got?)
    ensures |CountAll(h, ids, answers).accum| == |h.accum| + |at| && h.accum <= CountAll(h, ids, answers).accum
    ensures forall i :: 0 <= i < |at| ==>
              answers[at[i]].Got? && CountAll(h, ids, answers).accum[|h.accum| + i] == (ids[at[i]], answers[at[i]].msg)
  {
    at := [];
    if ids != [] {
      var last := |ids| - 1;
      at := CountedInOrder(h, ids[..last], answers[..last]);
      if answers[last].Got? {
        at := at + [last];
      }
    }
  }

  datatype Outcome = Enough(heard: Heard) | GaveUp(heard: Heard) | StillWaiting(heard: Heard)

  /** Where the wait stands: success is looked at first, then whether to give up. */
  function Verdict(h: Heard, channels: nat, done: Heard -> bool): Outcome {
    if done(h) then Enough(h) else if NReceived(h) >= channels then GaveUp(h) else StillWaiting(h)
  }

  /** What was heard, and the channels as they are. */
  datatype Polling = Polling(heard: Heard, chans: seq<Chan>)

  /** One poll of the pool. */
  function Round(ids: seq<ChannelId>, tag: Tag): Polling -> Polling {
    (p: Polling) =>
      if |p.chans| == |ids| then Polling(CountAll(p.heard, ids, AnswersOf(p.chans, tag)), AfterPoll(p.chans, tag))
          else p
  }

  function Undecided(channels: nat, done: Heard -> bool): Polling -> bool {
    (p: Polling) => Verdict(p.heard, channels, done).StillWaiting?
  }

  /** `step` taken while `open`, at most `limit` times. */
  function While(open: Polling -> bool, step: Polling -> Polling, p: Polling, limit: nat): Polling {
    if limit == 0 then p
    else
      var q := While(open, step, p, limit - 1);
      if open(q) then step(q) else q
  }

  lemma {:induction false} Settled(open: Polling -> bool, step: Polling -> Polling, p: Polling, n: nat, limit: nat)
    requires n <= limit && !open(While(open, step, p, n))
    ensures While(open, step, p, limit) == While(open, step, p, n)
    decreases limit
  {
    if n < limit {
      Settled(open, step, p, n, limit - 1);
    }
  }

  lemma WhileSteps(open: Polling -> bool, step: Polling -> Polling, p: Polling, n: nat)
    requires open(While(open, step, p, n))
    ensures While(open, step, p, n + 1) == step(While(open, step, p, n))
  {
  }

  lemma RoundIs(ids: seq<ChannelId>, tag: Tag, h: Heard, cs: seq<Chan>)
    requires |ids| == |cs|
    ensures Round(ids, tag)(Polling(h, cs)) == Polling(CountAll(h, ids, AnswersOf(cs, tag)), AfterPoll(cs, tag))
  {
  }

  /** A wait polls while undecided, at most `limit` times. */
  function Waited(h: Heard, ids: seq<ChannelId>, cs: seq<Chan>, tag: Tag, done: Heard -> bool, limit: nat): Polling {
    While(Undecided(|ids|, done), Round(ids, tag), Polling(h, cs), limit)
  }

  /** Polls the pool, whose channels are in the states `cs`, until there is a verdict;
      at most `limit` times. */
  method WaitForReplies(pool: FlawlessPool, tag: Tag, start: Heard, done: Heard -> bool, limit: nat,
                        ghost cs: seq<Chan>)
    returns (o: Outcome)
    requires pool.Valid() && pool.Holds(cs)
    modifies pool.pool
    ensures o == Verdict(Waited(start, pool.ids, cs, tag, done, limit).heard, |pool.ids|, done)
    ensures pool.Holds(Waited(start, pool.ids, cs, tag, done, limit).chans)
  {
    var replies := start;
    ghost var now := cs;
    ghost var open, round := Undecided(|pool.ids|, done), Round(pool.ids, tag);
    var polls := 0;
    while !done(replies)
      invariant pool.Holds(now) && polls <= limit
      invariant While(open, round, Polling(start, cs), polls) == Polling(replies, now)
      decreases limit - polls
    {
      if NReceived(replies) >= |pool.pool| {
        Settled(open, round, Polling(start, cs), polls, limit);
        return GaveUp(replies);
      }
      if polls == limit {
        return StillWaiting(replies);
      }
      WhileSteps(open, round, Polling(start, cs), polls);
      RoundIs(pool.ids, tag, replies, now);
      var resps := pool.Poll(tag, now);
      replies := CountResponses(replies, resps, pool.ids, AnswersOf(now, tag));
      now := AfterPoll(now, tag);
      polls := polls + 1;
    }
    Settled(open, round, Polling(start, cs), polls, limit);
    o := Enough(replies);
  }

  method CountResponses(start: Heard, resps: seq<(ChannelId, Answer)>, ghost ids: seq<ChannelId>,
                        ghost answers: seq<Answer>)
    returns (replies: Heard)
    requires |resps| == |ids| == |answers| && forall i :: 0 <= i < |resps| ==> resps[i] == (ids[i], answers[i])
    ensures replies == CountAll(start, ids, answers)
  {
    replies := start;
    for idx := 0 to |resps|
      invariant replies == CountAll(start, ids[..idx], answers[..idx])
    {
      assert ids[..idx + 1][..idx] == ids[..idx] && answers[..idx + 1][..idx] == answers[..idx];
      match resps[idx].1 {
        case Got(m) => replies := Heard(replies.accum + [(resps[idx].0, m)], replies.errors);
        case Nothing =>
        case Error(e) => replies := Heard(replies.accum, replies.errors[resps[idx].0 := e]);
      }
    }
    assert ids[..|ids|] == ids && answers[..|ids|] == answers;
  }

  // ------------------------------------------------ what a wait amounts to

  /** A channel only ever hands over messages with a property that all its messages have. */
  ghost predicate ChannelOk(good: (ChannelId, Msg) -> bool, id: ChannelId, c: Chan) {
    && (forall t :: t in c.buffered ==> c.buffered[t].tag == t && good(id, c.buffered[t]))
    && (forall k :: 0 <= k < |c.script| && c.script[k].Arrived? ==> good(id, c.script[k].msg))
  }

  ghost predicate HeardOk(good: (ChannelId, Msg) -> bool, ids: seq<ChannelId>, tag: Tag, h: Heard) {
    && (forall i :: 0 <= i < |h.accum| ==>
        h.accum[i].0 in ids && h.accum[i].1.tag == tag && good(h.accum[i].0, h.accum[i].1))
    && (forall id :: id in h.errors ==> id in ids)
  }

  lemma RecvOk(good: (ChannelId, Msg) -> bool, id: ChannelId, c: Chan, tag: Tag)
    requires ChannelOk(good, id, c)
    ensures ChannelOk(good, id, Recv(c, tag).0)
    ensures Recv(c, tag).1.Got? ==> Recv(c, tag).1.msg.tag == tag && good(id, Recv(c, tag).1.msg)
  {
    if tag !in c.buffered && Pending(c).Arrived? {
      assert good(id, Pending(c).msg);
    }
  }

  lemma {:induction false} CountAllOk(good: (ChannelId, Msg) -> bool, all: seq<ChannelId>, tag: Tag, h: Heard,
                                      ids: seq<ChannelId>, answers: seq<Answer>)
    requires HeardOk(good, all, tag, h) && |ids| == |answers|
    requires forall i :: 0 <= i < |ids| ==>
      ids[i] in all && (answers[i].Got? ==> answers[i].msg.tag == tag && good(ids[i], answers[i].msg))
    ensures HeardOk(good, all, tag, CountAll(h, ids, answers))
  {
    if ids != [] {
      CountAllOk(good, all, tag, h, ids[..|ids| - 1], answers[..|ids| - 1]);
    }
  }

  ghost predicate PollingOk(good: (ChannelId, Msg) -> bool, ids: seq<ChannelId>, tag: Tag, p: Polling) {
    && |p.chans| == |ids|
    && HeardOk(good, ids, tag, p.heard)
    && (forall i :: 0 <= i < |ids| ==> ChannelOk(good, ids[i], p.chans[i]))
  }

  lemma RoundOk(good: (ChannelId, Msg) -> bool, ids: seq<ChannelId>, tag: Tag, p: Polling)
    requires PollingOk(good, ids, tag, p)
    ensures PollingOk(good, ids, tag, Round(ids, tag)(p))
  {
    forall i | 0 <= i < |ids|
      ensures ChannelOk(good, ids[i], AfterPoll(p.chans, tag)[i])
      ensures
        var a := AnswersOf(p.chans, tag)[i];
        a.Got? ==> a.msg.tag == tag && good(ids[i], a.msg)
    {
      PollAt(p.chans, tag, i);
      RecvOk(good, ids[i], p.chans[i], tag);
    }
    CountAllOk(good, ids, tag, p.heard, ids, AnswersOf(p.chans, tag));
  }

  /** Every reply counted by a wait carries the request's tag and came through a channel
      of the pool; whatever all messages of a channel satisfy, it satisfies. */
  lemma {:induction false} OnlyGoodRepliesCount(good: (ChannelId, Msg) -> bool, h: Heard, ids: seq<ChannelId>,
                                                cs: seq<Chan>,
                                                tag: Tag, done: Heard -> bool, limit: nat)
    requires PollingOk(good, ids, tag, Polling(h, cs))
    ensures PollingOk(good, ids, tag, Waited(h, ids, cs, tag, done, limit))
  {
    if limit > 0 {
      OnlyGoodRepliesCount(good, h, ids, cs, tag, done, limit - 1);
      RoundOk(good, ids, tag, Waited(h, ids, cs, tag, done, limit - 1));
    }
  }

  /** The messages that the network delivers to a client. */
  function DeliveredTo(s: Sys, client: ClientId): (ChannelId, Msg) -> bool {
    (id: ChannelId, m: Msg) => ToClient(client, id, m.tag, m.body) in s.net
  }

  /** The `i`-th counted reply was delivered to the client under the tag. */
  ghost predicate DeliveredAt(s: Sys, client: ClientId, tag: Tag, h: Heard, i: nat) {
    i < |h.accum| ==> ToClient(client, h.accum[i].0, tag, h.accum[i].1.body) in s.net
  }

  /** The `i`-th counted reply answers the request issued under the tag. */
  ghost predicate AnswersAt(s: Sys, client: ClientId, tag: Tag, h: Heard, i: nat) {
    i < |h.accum| ==>
      && (client, tag) in s.issued
      && AnswersTruly(s.issued[(client, tag)], h.accum[i].0, h.accum[i].1.body, Times(s.servers))
  }

  lemma CountedAreDelivered(s: Sys, client: ClientId, ids: seq<ChannelId>, cs: seq<Chan>, tag: Tag,
                            done: Heard -> bool, limit: nat)
    requires |ids| == |cs|
    requires forall i :: 0 <= i < |ids| ==> ChannelOk(DeliveredTo(s, client), ids[i], cs[i])
    ensures forall i :: DeliveredAt(s, client, tag, Waited(NOTHING_HEARD, ids, cs, tag, done, limit).heard, i)
  {
    OnlyGoodRepliesCount(DeliveredTo(s, client), NOTHING_HEARD, ids, cs, tag, done, limit);
  }

  lemma DeliveredAnswers(s: Sys, client: ClientId, tag: Tag, h: Heard, i: nat)
    requires SysInv(s) && DeliveredAt(s, client, tag, h, i)
    ensures AnswersAt(s, client, tag, h, i)
  {
    if i < |h.accum| {
      assert MessageOk(s, ToClient(client, h.accum[i].0, tag, h.accum[i].1.body));
    }
  }

  /** With channels that carry what the network delivers to a client, every reply a wait
      counts answers the very request issued under its tag; no reply to an earlier
      request of the client ever enters its quorum. */
  lemma CountedRepliesAnswerTheRequest(s: Sys, client: ClientId, ids: seq<ChannelId>, cs: seq<Chan>, tag: Tag,
                                       done: Heard -> bool, limit: nat)
    requires SysInv(s) && |ids| == |cs|
    requires forall i :: 0 <= i < |ids| ==> ChannelOk(DeliveredTo(s, client), ids[i], cs[i])
    ensures forall i :: AnswersAt(s, client, tag, Waited(NOTHING_HEARD, ids, cs, tag, done, limit).heard, i)
  {
    var heard := Waited(NOTHING_HEARD, ids, cs, tag, done, limit).heard;
    CountedAreDelivered(s, client, ids, cs, tag, done, limit);
    forall i: nat ensures AnswersAt(s, client, tag, heard, i) {
      DeliveredAnswers(s, client, tag, heard, i);
    }
  }
}
