/** When a wait gives up. The code counts replies and errors, and gives up when they
    add up to the number of channels; this says exactly what the channels have to do
    for that, and when a quorum was still to be had. */
module GivingUp {
  import opened Protocol
  import opened Channels
  import opened WaitFor

  // ---------------------------------------------- what one channel answers

  /** The channel after a number of calls for the tag. */
  function After(c: Chan, tag: Tag, calls: nat): Chan {
    if calls == 0 then c else Recv(After(c, tag, calls - 1), tag).0
  }

  /** One of the first calls is answered with a reply. */
  predicate GotIn(c: Chan, tag: Tag, calls: nat) {
    calls > 0 && (GotIn(c, tag, calls - 1) || Recv(After(c, tag, calls - 1), tag).1.Got?)
  }

  /** One of the first calls is answered with an error. */
  predicate ErredIn(c: Chan, tag: Tag, calls: nat) {
    calls > 0 && (ErredIn(c, tag, calls - 1) || Recv(After(c, tag, calls - 1), tag).1.Error?)
  }

  lemma {:induction false} HeardStays(c: Chan, tag: Tag, p: nat, q: nat)
    requires p <= q
    ensures GotIn(c, tag, p) ==> GotIn(c, tag, q)
    ensures ErredIn(c, tag, p) ==> ErredIn(c, tag, q)
    decreases q - p
  {
    if p < q {
      HeardStays(c, tag, p, q - 1);
    }
  }

  /** How often the first calls for the tag ask the network: a buffered reply spares one. */
  function Attempts(c: Chan, tag: Tag, calls: nat): nat {
    if calls > 0 && tag in c.buffered then calls - 1 else calls
  }

  /** Attempt `n` to receive is among them, and the network does something at it. */
  predicate Tried(c: Chan, tag: Tag, calls: nat, n: nat) {
    c.next <= n < c.next + Attempts(c, tag, calls) && n < |c.script|
  }

  /** Where the channel stands after some calls. */
  lemma {:induction false} AfterCalls(c: Chan, tag: Tag, calls: nat)
    ensures
      var c1 := After(c, tag, calls);
      c1.script == c.script && c1.next == c.next + Attempts(c, tag, calls) && (calls > 0 ==> tag !in c1.buffered)
  {
    if calls > 0 {
      AfterCalls(c, tag, calls - 1);
      RecvMeans(After(c, tag, calls - 1), tag);
    }
  }

  /** The last call adds one attempt, unless a buffered reply spares it. */
  lemma OneMoreTried(c: Chan, tag: Tag, calls: nat, n: nat)
    requires calls > 0
    ensures
      var c1 := After(c, tag, calls - 1);
      Tried(c, tag, calls, n) <==>
        Tried(c, tag, calls - 1, n) || (tag !in c1.buffered && n == c1.next && n < |c.script|)
  {
    AfterCalls(c, tag, calls - 1);
  }

  lemma TriedAdds(c: Chan, tag: Tag, calls: nat)
    requires calls > 0
    ensures
      var c1 := After(c, tag, calls - 1);
      forall n: nat :: Tried(c, tag, calls, n) <==>
        Tried(c, tag, calls - 1, n) || (tag !in c1.buffered && n == c1.next && n < |c.script|)
  {
    forall n: nat { OneMoreTried(c, tag, calls, n); }
  }

  /** Some attempt brings a message of the tag. */
  ghost predicate Brought(c: Chan, tag: Tag, calls: nat) {
    exists n: nat :: Tried(c, tag, calls, n) && c.script[n].Arrived? && c.script[n].msg.tag == tag
  }

  ghost predicate BrokeDown(c: Chan, tag: Tag, calls: nat) {
    exists n: nat :: Tried(c, tag, calls, n) && c.script[n].Broken?
  }

  /** A channel replies in time exactly if a reply is buffered or the network brings one
      of the tag. */
  lemma {:induction false} RepliesIff(c: Chan, tag: Tag, calls: nat)
    ensures GotIn(c, tag, calls) <==> (calls > 0 && tag in c.buffered) || Brought(c, tag, calls)
  {
    if calls > 0 {
      var c1 := After(c, tag, calls - 1);
      RepliesIff(c, tag, calls - 1);
      AfterCalls(c, tag, calls - 1);
      TriedAdds(c, tag, calls);
      if tag !in c1.buffered && c1.next < |c.script| {
        assert Tried(c, tag, calls, c1.next);
      }
    }
  }

  /** It answers with an error exactly if the network breaks. Messages of other tags are
      neither reply nor error. */
  lemma {:induction false} ErrsIff(c: Chan, tag: Tag, calls: nat)
    ensures ErredIn(c, tag, calls) <==> BrokeDown(c, tag, calls)
  {
    if calls > 0 {
      var c1 := After(c, tag, calls - 1);
      ErrsIff(c, tag, calls - 1);
      AfterCalls(c, tag, calls - 1);
      TriedAdds(c, tag, calls);
      if tag !in c1.buffered && c1.next < |c.script| {
        assert Tried(c, tag, calls, c1.next);
      }
    }
  }

  // --------------------------------------------------- a pool of channels

  predicate IsPool(ids: seq<ChannelId>, cs: seq<Chan>) {
    |ids| == |cs| && forall i, j :: 0 <= i < j < |ids| ==> ids[i] != ids[j]
  }

  function Ids(ids: seq<ChannelId>): set<ChannelId> {
    set i | 0 <= i < |ids| :: ids[i]
  }

  /** The channels that reply within a number of polls. */
  function GotBy(ids: seq<ChannelId>, cs: seq<Chan>, tag: Tag, polls: nat): set<ChannelId>
    requires |ids| == |cs|
  {
    set i | 0 <= i < |ids| && GotIn(cs[i], tag, polls) :: ids[i]
  }

  /** The channels that answer with an error within a number of polls. */
  function ErredBy(ids: seq<ChannelId>, cs: seq<Chan>, tag: Tag, polls: nat): set<ChannelId>
    requires |ids| == |cs|
  {
    set i | 0 <= i < |ids| && ErredIn(cs[i], tag, polls) :: ids[i]
  }

  /** What a pool is heard to say is a matter of the channels' scripts and buffers. */
  lemma HeardByIff(ids: seq<ChannelId>, cs: seq<Chan>, tag: Tag, polls: nat, i: nat)
    requires IsPool(ids, cs) && i < |ids|
    ensures ids[i] in GotBy(ids, cs, tag, polls) <==>
            (polls > 0 && tag in cs[i].buffered) || Brought(cs[i], tag, polls)
    ensures ids[i] in ErredBy(ids, cs, tag, polls) <==> BrokeDown(cs[i], tag, polls)
  {
    RepliesIff(cs[i], tag, polls);
    ErrsIff(cs[i], tag, polls);
  }

  /** A channel that never breaks is never counted as failed, whatever strays it carries. */
  lemma HealthyNeverErrs(ids: seq<ChannelId>, cs: seq<Chan>, tag: Tag, polls: nat, i: nat)
    requires IsPool(ids, cs) && i < |ids|
    requires forall n :: cs[i].next <= n < |cs[i].script| ==> !cs[i].script[n].Broken?
    ensures ids[i] !in ErredBy(ids, cs, tag, polls)
  {
    HeardByIff(ids, cs, tag, polls, i);
  }

  lemma HeardByStays(ids: seq<ChannelId>, cs: seq<Chan>, tag: Tag, p: nat, q: nat)
    requires |ids| == |cs| && p <= q
    ensures GotBy(ids, cs, tag, p) <= GotBy(ids, cs, tag, q)
    ensures ErredBy(ids, cs, tag, p) <= ErredBy(ids, cs, tag, q)
  {
    forall i | 0 <= i < |ids| ensures (GotIn(cs[i], tag, p) ==> GotIn(cs[i], tag, q))
        && (ErredIn(cs[i], tag, p) ==> ErredIn(cs[i], tag, q)) {
      HeardStays(cs[i], tag, p, q);
    }
  }

  // ------------------------------------------- what polling on would hear

  function Repeated(step: Polling -> Polling, p: Polling, n: nat): Polling {
    if n == 0 then p else step(Repeated(step, p, n - 1))
  }

  /** What is heard, and the channels left, when polling goes on regardless. */
  function Polled(ids: seq<ChannelId>, cs: seq<Chan>, tag: Tag, polls: nat): Polling {
    Repeated(Round(ids, tag), Polling(NOTHING_HEARD, cs), polls)
  }

  /** What one poll adds to what was heard of channel `id`. */
  ghost predicate PollAdds(h: Heard, r: Heard, ids: seq<ChannelId>, answers: seq<Answer>, id: ChannelId)
    requires |ids| == |answers|
  {
    && (id in Handled(r.accum) <==>
          id in Handled(h.accum) || (exists i :: 0 <= i < |ids| && ids[i] == id && answers[i].Got?))
    && (id in r.errors <==> id in h.errors || exists i :: 0 <= i < |ids| && ids[i] == id && answers[i].Error?)
  }

  lemma {:induction false} CountAllAdds(h: Heard, ids: seq<ChannelId>, answers: seq<Answer>, id: ChannelId)
    requires |ids| == |answers|
    ensures PollAdds(h, CountAll(h, ids, answers), ids, answers, id)
  {
    if ids != [] {
      var n := |ids| - 1;
      CountAllAdds(h, ids[..n], answers[..n], id);
      assert forall i :: 0 <= i < n ==> ids[..n][i] == ids[i] && answers[..n][i] == answers[i];
    }
  }

  /** Channel `i` after some polls, and what was heard of it. */
  ghost predicate PolledAt(ids: seq<ChannelId>, cs: seq<Chan>, tag: Tag, polls: nat, i: nat, p: Polling)
    requires |ids| == |cs|
  {
    && |p.chans| == |ids|
    && (i < |ids| ==>
          && p.chans[i] == After(cs[i], tag, polls)
          && (ids[i] in Handled(p.heard.accum) <==> GotIn(cs[i], tag, polls))
          && (ids[i] in p.heard.errors <==> ErredIn(cs[i], tag, polls)))
  }

  lemma RoundHears(ids: seq<ChannelId>, cs: seq<Chan>, tag: Tag, polls: nat, i: nat, p: Polling)
    requires IsPool(ids, cs) && PolledAt(ids, cs, tag, polls, i, p)
    ensures PolledAt(ids, cs, tag, polls + 1, i, Round(ids, tag)(p))
  {
    if i < |ids| {
      PollAt(p.chans, tag, i);
      CountAllAdds(p.heard, ids, AnswersOf(p.chans, tag), ids[i]);
    }
  }

  lemma {:induction false} PollsHear(ids: seq<ChannelId>, cs: seq<Chan>, tag: Tag, polls: nat, i: nat)
    requires IsPool(ids, cs)
    ensures PolledAt(ids, cs, tag, polls, i, Polled(ids, cs, tag, polls))
  {
    if polls > 0 {
      PollsHear(ids, cs, tag, polls - 1, i);
      RoundHears(ids, cs, tag, polls - 1, i, Polled(ids, cs, tag, polls - 1));
    }
  }

  /** Nothing is heard of a stranger. */
  ghost predicate NotHeard(ids: seq<ChannelId>, id: ChannelId, p: Polling) {
    |p.chans| == |ids| && id !in Handled(p.heard.accum) && id !in p.heard.errors
  }

  lemma RoundHearsPool(ids: seq<ChannelId>, tag: Tag, id: ChannelId, p: Polling)
    requires id !in Ids(ids) && NotHeard(ids, id, p)
    ensures NotHeard(ids, id, Round(ids, tag)(p))
  {
    CountAllAdds(p.heard, ids, AnswersOf(p.chans, tag), id);
  }

  lemma {:induction false} OnlyPoolIsHeard(ids: seq<ChannelId>, cs: seq<Chan>, tag: Tag, polls: nat, id: ChannelId)
    requires |ids| == |cs| && id !in Ids(ids)
    ensures NotHeard(ids, id, Polled(ids, cs, tag, polls))
  {
    if polls > 0 {
      OnlyPoolIsHeard(ids, cs, tag, polls - 1, id);
      RoundHearsPool(ids, tag, id, Polled(ids, cs, tag, polls - 1));
    }
  }

  /** What is heard is a matter of the channels and the tag alone. */
  lemma PolledHears(ids: seq<ChannelId>, cs: seq<Chan>, tag: Tag, polls: nat)
    requires IsPool(ids, cs)
    ensures Handled(Polled(ids, cs, tag, polls).heard.accum) == GotBy(ids, cs, tag, polls)
    ensures Polled(ids, cs, tag, polls).heard.errors.Keys == ErredBy(ids, cs, tag, polls)
  {
    var h := Polled(ids, cs, tag, polls).heard;
    forall id
      ensures id in Handled(h.accum) <==> id in GotBy(ids, cs, tag, polls)
      ensures id in h.errors.Keys <==> id in ErredBy(ids, cs, tag, polls)
    {
      if id in Ids(ids) {
        var i: nat :| i < |ids| && ids[i] == id;
        PollsHear(ids, cs, tag, polls, i);
      } else {
        OnlyPoolIsHeard(ids, cs, tag, polls, id);
      }
    }
  }

  // --------------------------------------------------- where a wait stops

  predicate Open(ids: seq<ChannelId>, cs: seq<Chan>, tag: Tag, done: Heard -> bool, polls: nat) {
    Verdict(Polled(ids, cs, tag, polls).heard, |ids|, done).StillWaiting?
  }

  /** The first number at which `f` fails, up to a limit. */
  lemma {:induction false} FirstFailure(f: nat -> bool, limit: nat) returns (p: nat)
    ensures p <= limit && forall q: nat :: q < p ==> f(q)
    ensures p == limit || !f(p)
  {
    if limit == 0 {
      p := 0;
    } else {
      p := FirstFailure(f, limit - 1);
      if p == limit - 1 && f(p) {
        p := limit;
      }
    }
  }

  lemma {:induction false} WhileIsRepeated(open: Polling -> bool, step: Polling -> Polling, p: Polling, n: nat)
    requires forall q: nat :: q < n ==> open(Repeated(step, p, q))
    ensures While(open, step, p, n) == Repeated(step, p, n)
  {
    if n > 0 {
      WhileIsRepeated(open, step, p, n - 1);
      assert open(Repeated(step, p, n - 1));
    }
  }

  /** A loop takes its step up to the first time it is not open. */
  lemma WhileStopsAt(open: Polling -> bool, step: Polling -> Polling, p: Polling, limit: nat) returns (n: nat)
    ensures n <= limit && forall q: nat :: q < n ==> open(Repeated(step, p, q))
    ensures n == limit || !open(Repeated(step, p, n))
    ensures While(open, step, p, limit) == Repeated(step, p, n)
  {
    var f := (q: nat) => open(Repeated(step, p, q));
    n := FirstFailure(f, limit);
    forall q: nat | q < n ensures open(Repeated(step, p, q)) { assert f(q); }
    WhileIsRepeated(open, step, p, n);
    if n < limit {
      assert !f(n);
      Settled(open, step, p, n, limit);
    }
  }

  /** A wait hears what polling hears, up to the first poll that decides it. */
  lemma WaitStopsAt(ids: seq<ChannelId>, cs: seq<Chan>, tag: Tag, done: Heard -> bool, limit: nat) returns (p: nat)
    ensures p <= limit && forall q: nat :: q < p ==> Open(ids, cs, tag, done, q)
    ensures p == limit || !Open(ids, cs, tag, done, p)
    ensures Waited(NOTHING_HEARD, ids, cs, tag, done, limit) == Polled(ids, cs, tag, p)
  {
    var open, round, start := Undecided(|ids|, done), Round(ids, tag), Polling(NOTHING_HEARD, cs);
    p := WhileStopsAt(open, round, start, limit);
    forall q: nat | q < p ensures Open(ids, cs, tag, done, q) { assert open(Repeated(round, start, q)); }
  }

  /** The condition of every phase: enough channels, those known already included. */
  function QuorumOf(known: set<ChannelId>, size: nat): Heard -> bool {
    (h: Heard) => |known + Handled(h.accum)| >= size
  }

  /** After these polls the counts reach the number of channels, and still too few replied. */
  predicate Short(ids: seq<ChannelId>, cs: seq<Chan>, tag: Tag, known: set<ChannelId>, size: nat, polls: nat)
    requires |ids| == |cs|
  {
    && |known + GotBy(ids, cs, tag, polls)| < size
    && |GotBy(ids, cs, tag, polls)| + |ErredBy(ids, cs, tag, polls)| >= |ids|
  }

  /** Enough have replied after these polls. */
  predicate Reached(ids: seq<ChannelId>, cs: seq<Chan>, tag: Tag, known: set<ChannelId>, size: nat, polls: nat)
    requires |ids| == |cs|
  {
    |known + GotBy(ids, cs, tag, polls)| >= size
  }

  lemma {:induction false} SmallerSet(a: set<ChannelId>, b: set<ChannelId>)
    requires a <= b
    ensures |a| <= |b|
  {
    if a != {} {
      var x :| x in a;
      SmallerSet(a - {x}, b - {x});
    }
  }

  lemma ReachedStays(ids: seq<ChannelId>, cs: seq<Chan>, tag: Tag, known: set<ChannelId>, size: nat, p: nat, q: nat)
    requires |ids| == |cs| && p <= q && Reached(ids, cs, tag, known, size, p)
    ensures Reached(ids, cs, tag, known, size, q)
  {
    HeardByStays(ids, cs, tag, p, q);
    SmallerSet(known + GotBy(ids, cs, tag, p), known + GotBy(ids, cs, tag, q));
  }

  /** The verdict after some polls, in terms of the channels. */
  lemma VerdictMeans(ids: seq<ChannelId>, cs: seq<Chan>, tag: Tag, known: set<ChannelId>, size: nat, polls: nat)
    requires IsPool(ids, cs)
    ensures
      var v := Verdict(Polled(ids, cs, tag, polls).heard, |ids|, QuorumOf(known, size));
      && (v.Enough? <==> Reached(ids, cs, tag, known, size, polls))
      && (v.GaveUp? <==> Short(ids, cs, tag, known, size, polls))
  {
    PolledHears(ids, cs, tag, polls);
    var h := Polled(ids, cs, tag, polls).heard;
    assert |h.errors| == |h.errors.Keys|;
  }

  function VerdictBy(ids: seq<ChannelId>, cs: seq<Chan>, tag: Tag, known: set<ChannelId>, size: nat,
                     limit: nat): Outcome
    requires |ids| == |cs|
  {
    var done := QuorumOf(known, size);
    Verdict(Waited(NOTHING_HEARD, ids, cs, tag, done, limit).heard, |ids|, done)
  }

  /** The poll that decides a wait. */
  ghost predicate DecidedAt(ids: seq<ChannelId>, cs: seq<Chan>, tag: Tag, known: set<ChannelId>, size: nat,
                            limit: nat, p: nat)
    requires |ids| == |cs|
  {
    && p <= limit
    && (forall q: nat :: q < p ==> !Short(ids, cs, tag, known, size, q) && !Reached(ids, cs, tag, known, size, q))
    && (p < limit ==> Short(ids, cs, tag, known, size, p) || Reached(ids, cs, tag, known, size, p))
  }

  lemma WaitIsDecided(ids: seq<ChannelId>, cs: seq<Chan>, tag: Tag, known: set<ChannelId>, size: nat, limit: nat)
    returns (p: nat)
    requires IsPool(ids, cs)
    ensures DecidedAt(ids, cs, tag, known, size, limit, p)
    ensures VerdictBy(ids, cs, tag, known, size, limit).GaveUp? <==> Short(ids, cs, tag, known, size, p)
    ensures VerdictBy(ids, cs, tag, known, size, limit).heard == Polled(ids, cs, tag, p).heard
  {
    var done := QuorumOf(known, size);
    p := WaitStopsAt(ids, cs, tag, done, limit);
    forall q: nat
      ensures Open(ids, cs, tag, done, q) <==>
          !Short(ids, cs, tag, known, size, q) && !Reached(ids, cs, tag, known, size, q)
    {
      VerdictMeans(ids, cs, tag, known, size, q);
    }
    VerdictMeans(ids, cs, tag, known, size, p);
  }

  lemma DecisionIffShort(ids: seq<ChannelId>, cs: seq<Chan>, tag: Tag, known: set<ChannelId>, size: nat, limit: nat,
                         p: nat)
    requires |ids| == |cs| && DecidedAt(ids, cs, tag, known, size, limit, p)
    ensures Short(ids, cs, tag, known, size, p) <==> exists q: nat :: q <= limit && Short(ids, cs, tag, known, size, q)
  {
    if q: nat :| q <= limit && Short(ids, cs, tag, known, size, q) {
      if Reached(ids, cs, tag, known, size, p) && p <= q {
        ReachedStays(ids, cs, tag, known, size, p, q);
      }
    }
  }

  /** A wait gives up exactly when, after some poll, replies and errors add up to the
      number of channels before enough have replied. */
  lemma GivesUpIff(ids: seq<ChannelId>, cs: seq<Chan>, tag: Tag, known: set<ChannelId>, size: nat, limit: nat)
    requires IsPool(ids, cs)
    ensures VerdictBy(ids, cs, tag, known, size, limit).GaveUp? <==>
            exists p: nat :: p <= limit && Short(ids, cs, tag, known, size, p)
  {
    var p := WaitIsDecided(ids, cs, tag, known, size, limit);
    DecisionIffShort(ids, cs, tag, known, size, limit, p);
  }

  // ------------------------------------------------ giving up too soon

  /** The first poll after which the counts reach the number of channels. */
  ghost predicate FirstShort(ids: seq<ChannelId>, cs: seq<Chan>, tag: Tag, known: set<ChannelId>, size: nat, polls: nat)
    requires |ids| == |cs|
  {
    && Short(ids, cs, tag, known, size, polls)
    && forall q: nat :: q < polls ==> !Short(ids, cs, tag, known, size, q)
  }

  /** Some channel was heard from neither way. */
  predicate Unheard(ids: seq<ChannelId>, h: Heard) {
    Ids(ids) - (Handled(h.accum) + h.errors.Keys) != {}
  }

  /** The counts are first short at this poll, and some channel has answered in neither way. */
  ghost predicate ShortUnheard(ids: seq<ChannelId>, cs: seq<Chan>, tag: Tag, known: set<ChannelId>, size: nat,
                               polls: nat)
    requires |ids| == |cs|
  {
    && FirstShort(ids, cs, tag, known, size, polls)
    && Ids(ids) - (GotBy(ids, cs, tag, polls) + ErredBy(ids, cs, tag, polls)) != {}
  }

  lemma DecisionIffShortUnheard(ids: seq<ChannelId>, cs: seq<Chan>, tag: Tag, known: set<ChannelId>, size: nat,
                                limit: nat, p: nat)
    requires |ids| == |cs| && DecidedAt(ids, cs, tag, known, size, limit, p)
    ensures ShortUnheard(ids, cs, tag, known, size, p) <==>
        exists q: nat :: q <= limit && ShortUnheard(ids, cs, tag, known, size, q)
  {
    if q: nat :| q <= limit && ShortUnheard(ids, cs, tag, known, size, q) {
      DecisionIffShort(ids, cs, tag, known, size, limit, p);
      assert q == p;
    }
  }

  /** A wait gives up with a channel it never heard from exactly when the counts first
      reach the number of channels, too few having replied, and some channel has
      answered neither with a reply nor with an error. */
  lemma GivesUpUnheardIff(ids: seq<ChannelId>, cs: seq<Chan>, tag: Tag, known: set<ChannelId>, size: nat, limit: nat)
    requires IsPool(ids, cs)
    ensures
      var v := VerdictBy(ids, cs, tag, known, size, limit);
      v.GaveUp? && Unheard(ids, v.heard) <==>
      exists p: nat :: p <= limit && ShortUnheard(ids, cs, tag, known, size, p)
  {
    var p := WaitIsDecided(ids, cs, tag, known, size, limit);
    PolledHears(ids, cs, tag, p);
    DecisionIffShortUnheard(ids, cs, tag, known, size, limit, p);
  }

  /** Then some other channel was counted twice, for a reply and for an error. */
  lemma UnheardMeansCountedTwice(ids: seq<ChannelId>, cs: seq<Chan>, tag: Tag, known: set<ChannelId>, size: nat,
                                 polls: nat)
    requires IsPool(ids, cs) && Short(ids, cs, tag, known, size, polls)
    ensures
      var (a, b) := (GotBy(ids, cs, tag, polls), ErredBy(ids, cs, tag, polls));
      |a * b| >= |Ids(ids) - (a + b)|
  {
    var (a, b) := (GotBy(ids, cs, tag, polls), ErredBy(ids, cs, tag, polls));
    IdsSize(ids);
    assert Ids(ids) == (Ids(ids) - (a + b)) + (a + b);
    assert |a + b| == |a| + |b| - |a * b|;
    assert |Ids(ids)| == |Ids(ids) - (a + b)| + |a + b|;
  }

  lemma {:induction false} IdsSize(ids: seq<ChannelId>)
    requires forall i, j :: 0 <= i < j < |ids| ==> ids[i] != ids[j]
    ensures |Ids(ids)| == |ids|
  {
    if ids != [] {
      var n := |ids| - 1;
      IdsSize(ids[..n]);
      assert Ids(ids) == Ids(ids[..n]) + {ids[n]} by {
        forall x | x in Ids(ids) ensures x in Ids(ids[..n]) + {ids[n]} {
          var i :| 0 <= i < |ids| && ids[i] == x;
          assert i < n ==> ids[..n][i] == x;
        }
        forall x | x in Ids(ids[..n]) ensures x in Ids(ids) {
          var i :| 0 <= i < n && ids[..n][i] == x;
          assert ids[i] == x;
        }
      }
    }
  }

  /** A wait that gives up would have succeeded, had it gone on polling, exactly when the
      counts were short at some poll up to the limit and enough reply at some other. */
  lemma GivesUpTooSoonIff(ids: seq<ChannelId>, cs: seq<Chan>, tag: Tag, known: set<ChannelId>, size: nat, limit: nat)
    requires IsPool(ids, cs)
    ensures
      VerdictBy(ids, cs, tag, known, size, limit).GaveUp?
          && (exists q: nat :: Reached(ids, cs, tag, known, size, q)) <==>
      exists p: nat, q: nat :: p <= limit && p < q && Short(ids, cs, tag, known, size, p)
          && Reached(ids, cs, tag, known, size, q)
  {
    GivesUpIff(ids, cs, tag, known, size, limit);
    forall p: nat, q: nat | Short(ids, cs, tag, known, size, p) && Reached(ids, cs, tag, known, size, q) ensures p < q {
      if q <= p {
        ReachedStays(ids, cs, tag, known, size, q, p);
      }
    }
  }

  /** Where a channel that once replied never fails, and one that failed never replies,
      giving up is right: no number of polls would have been enough. */
  lemma FinalErrorsJustifyGivingUp(ids: seq<ChannelId>, cs: seq<Chan>, tag: Tag, known: set<ChannelId>, size: nat,
                                   limit: nat, q: nat)
    requires IsPool(ids, cs)
    requires forall i: nat, p: nat :: i < |ids| ==> !(GotIn(cs[i], tag, p) && ErredIn(cs[i], tag, p))
    requires VerdictBy(ids, cs, tag, known, size, limit).GaveUp?
    ensures !Reached(ids, cs, tag, known, size, q)
  {
    GivesUpIff(ids, cs, tag, known, size, limit);
    var p: nat :| p <= limit && Short(ids, cs, tag, known, size, p);
    if Reached(ids, cs, tag, known, size, q) {
      if q <= p {
        ReachedStays(ids, cs, tag, known, size, q, p);
      } else {
        NobodyElseReplies(ids, cs, tag, known, size, p, q);
      }
      assert false;
    }
  }

  /** The ids at the positions that `f` picks. */
  ghost function Picked(ids: seq<ChannelId>, f: nat -> bool): set<ChannelId> {
    set i: nat | i < |ids| && f(i) :: ids[i]
  }

  lemma {:induction false} PickedSize(ids: seq<ChannelId>, f: nat -> bool, g: nat -> bool)
    requires forall i, j :: 0 <= i < j < |ids| ==> ids[i] != ids[j]
    requires forall i: nat :: i < |ids| ==> !(f(i) && g(i))
    ensures |Picked(ids, f)| + |Picked(ids, g)| <= |ids|
    ensures |Picked(ids, f)| + |Picked(ids, g)| == |ids| ==> forall i: nat :: i < |ids| ==> f(i) || g(i)
  {
    if ids != [] {
      PickedSize(ids[..|ids| - 1], f, g);
      PickedAdds(ids, f);
      PickedAdds(ids, g);
    }
  }

  lemma PickedBefore(ids: seq<ChannelId>, f: nat -> bool, x: ChannelId)
    requires ids != [] && forall i, j :: 0 <= i < j < |ids| ==> ids[i] != ids[j]
    ensures x in Picked(ids, f) <==> x in Picked(ids[..|ids| - 1], f) || (f(|ids| - 1) && x == ids[|ids| - 1])
    ensures ids[|ids| - 1] !in Picked(ids[..|ids| - 1], f)
  {
    var n := |ids| - 1;
    if i: nat :| i < |ids| && f(i) && ids[i] == x {
      assert i < n ==> ids[..n][i] == x;
    }
    if i: nat :| i < n && f(i) && ids[..n][i] == x {
      assert ids[i] == x;
    }
  }

  lemma PickedAdds(ids: seq<ChannelId>, f: nat -> bool)
    requires ids != [] && forall i, j :: 0 <= i < j < |ids| ==> ids[i] != ids[j]
    ensures |Picked(ids, f)| == |Picked(ids[..|ids| - 1], f)| + if f(|ids| - 1) then 1 else 0
  {
    var n, before := |ids| - 1, Picked(ids[..|ids| - 1], f);
    forall x ensures x in Picked(ids, f) <==> x in before || (f(n) && x == ids[n]) { PickedBefore(ids, f, x); }
    PickedBefore(ids, f, ids[n]);
    assert Picked(ids, f) == before + if f(n) then {ids[n]} else {};
  }

  /** Where nobody is counted twice, everybody was heard from when the counts add up. */
  lemma AllAreHeard(ids: seq<ChannelId>, cs: seq<Chan>, tag: Tag, known: set<ChannelId>, size: nat, p: nat, i: nat)
    requires IsPool(ids, cs) && Short(ids, cs, tag, known, size, p) && i < |ids|
    requires forall j: nat :: j < |ids| ==> !(GotIn(cs[j], tag, p) && ErredIn(cs[j], tag, p))
    ensures GotIn(cs[i], tag, p) || ErredIn(cs[i], tag, p)
  {
    var f := (j: nat) => j < |cs| && GotIn(cs[j], tag, p);
    var g := (j: nat) => j < |cs| && ErredIn(cs[j], tag, p);
    assert GotBy(ids, cs, tag, p) == Picked(ids, f);
    assert ErredBy(ids, cs, tag, p) == Picked(ids, g);
    PickedSize(ids, f, g);
    assert f(i) || g(i);
  }

  lemma NobodyElseReplies(ids: seq<ChannelId>, cs: seq<Chan>, tag: Tag, known: set<ChannelId>, size: nat, p: nat,
                          q: nat)
    requires IsPool(ids, cs) && p <= q && Short(ids, cs, tag, known, size, p)
    requires forall i: nat, p: nat :: i < |ids| ==> !(GotIn(cs[i], tag, p) && ErredIn(cs[i], tag, p))
    ensures GotBy(ids, cs, tag, q) == GotBy(ids, cs, tag, p)
  {
    forall i: nat | i < |ids| ensures GotIn(cs[i], tag, q) <==> GotIn(cs[i], tag, p) {
      AllAreHeard(ids, cs, tag, known, size, p, i);
      HeardStays(cs[i], tag, p, q);
    }
  }

  // ----------------------------------------------------------- a witness

  /** A channel that replies and then fails. */
  function RepliesThenFails(x: Response): Chan {
    Chan([Arrived(Msg(3, x)), Broken(0)], 0, map[])
  }

  /** A channel that is slower by two polls. */
  function RepliesLate(y: Response): Chan {
    Chan([Empty, Empty, Arrived(Msg(3, y))], 0, map[])
  }

  lemma WitnessChannels(x: Response, y: Response)
    ensures !GotIn(RepliesThenFails(x), 3, 0) && GotIn(RepliesThenFails(x), 3, 1) && GotIn(RepliesThenFails(x), 3, 2)
    ensures GotIn(RepliesThenFails(x), 3, 3)
    ensures !ErredIn(RepliesThenFails(x), 3, 0) && !ErredIn(RepliesThenFails(x), 3, 1)
        && ErredIn(RepliesThenFails(x), 3, 2)
    ensures !GotIn(RepliesLate(y), 3, 0) && !GotIn(RepliesLate(y), 3, 1) && !GotIn(RepliesLate(y), 3, 2)
        && GotIn(RepliesLate(y), 3, 3)
    ensures !ErredIn(RepliesLate(y), 3, 0) && !ErredIn(RepliesLate(y), 3, 1) && !ErredIn(RepliesLate(y), 3, 2)
  {
    var a, b := RepliesThenFails(x), RepliesLate(y);
    assert After(a, 3, 1) == a.(next := 1);
    assert After(a, 3, 2) == a.(next := 2);
    assert After(b, 3, 1) == b.(next := 1);
    assert After(b, 3, 2) == b.(next := 2);
  }

  lemma WitnessCounts(x: Response, y: Response, polls: nat)
    requires polls <= 3
    ensures GotBy([0, 1], [RepliesThenFails(x), RepliesLate(y)], 3, polls)
         == if polls == 0 then {} else if polls < 3 then {0} else {0, 1}
    ensures polls < 3 ==>
      ErredBy([0, 1], [RepliesThenFails(x), RepliesLate(y)], 3, polls) == if polls < 2 then {} else {0}
  {
    var ids, cs: seq<Chan> := [0, 1], [RepliesThenFails(x), RepliesLate(y)];
    WitnessChannels(x, y);
    forall id: ChannelId
      ensures id in GotBy(ids, cs, 3, polls) <==>
          (id == 0 && GotIn(cs[0], 3, polls)) || (id == 1 && GotIn(cs[1], 3, polls))
      ensures id in ErredBy(ids, cs, 3, polls) <==>
          (id == 0 && ErredIn(cs[0], 3, polls)) || (id == 1 && ErredIn(cs[1], 3, polls))
    {
      assert ids[0] == 0 && ids[1] == 1;
    }
  }

  lemma WitnessIsShort(x: Response, y: Response)
    ensures ShortUnheard([0, 1], [RepliesThenFails(x), RepliesLate(y)], 3, {}, 2, 2)
    ensures Reached([0, 1], [RepliesThenFails(x), RepliesLate(y)], 3, {}, 2, 3)
  {
    var ids, cs: seq<Chan> := [0, 1], [RepliesThenFails(x), RepliesLate(y)];
    WitnessCounts(x, y, 0);
    WitnessCounts(x, y, 1);
    WitnessCounts(x, y, 2);
    WitnessCounts(x, y, 3);
    assert ids[1] in Ids(ids);
  }

  /** Giving up does not mean that a quorum cannot be had. With two channels, both
      needed, one that replies and then fails makes the wait give up after two polls;
      nothing was heard of the other, which would have replied at the third. */
  lemma GivesUpTooSoon(x: Response, y: Response)
    ensures
      var ids, cs: seq<Chan> := [0, 1], [RepliesThenFails(x), RepliesLate(y)];
      && VerdictBy(ids, cs, 3, {}, 2, 2).GaveUp?
      && Unheard(ids, VerdictBy(ids, cs, 3, {}, 2, 2).heard)
      && Reached(ids, cs, 3, {}, 2, 3)
  {
    var ids, cs: seq<Chan> := [0, 1], [RepliesThenFails(x), RepliesLate(y)];
    WitnessIsShort(x, y);
    GivesUpUnheardIff(ids, cs, 3, {}, 2, 2);
  }
}
