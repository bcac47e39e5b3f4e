/** A server: the register it keeps and the clients connected to it. */
module ServerRegister {
  import opened Timestamps
  import opened ReadPhases
  import opened Protocol
  import opened StepEffects

  // ----------------------------------------------- any sequence of requests

  /** The register and the responses after serving requests one by one. */
  function ServeAll(r: Replica, requests: seq<Request>): (s: (Replica, seq<Response>))
    ensures |s.1| == |requests|
  {
    if requests == [] then (r, [])
    else
      var (r0, out) := ServeAll(r, requests[..|requests| - 1]);
      var (r1, response) := Handle(r0, requests[|requests| - 1]);
      (r1, out + [response])
  }

  /** The register holds the largest of its first timestamp and those written, with the
      value that came with it; every response fits its request, acknowledgements cover
      what they acknowledge, and no response is ahead of the register. */
  lemma {:induction false} ServesLargest(r: Replica, requests: seq<Request>)
    ensures
      var (r1, out) := ServeAll(r, requests);
      && Le(r.ts, r1.ts)
      && (forall i :: 0 <= i < |requests| && requests[i].Write? ==> Le(requests[i].ts, r1.ts))
      && (r1 != r ==>
            exists i :: 0 <= i < |requests| && requests[i].Write? && Replica(requests[i].value, requests[i].ts) == r1)
      && (forall i :: 0 <= i < |requests| && requests[i].Get? ==> out[i].GetResponse? && Le(out[i].reading.ts, r1.ts))
      && (forall i :: 0 <= i < |requests| && requests[i].GetTimestamp? ==>
          out[i].TimestampResponse? && Le(out[i].ts, r1.ts))
      && (forall i :: 0 <= i < |requests| && requests[i].Write? ==>
            out[i].WriteResponse? && Le(requests[i].ts, out[i].lb) && Le(out[i].lb, r1.ts))
  {
    if requests != [] {
      var before := requests[..|requests| - 1];
      ServesLargest(r, before);
      var (r0, out0) := ServeAll(r, before);
      var (r1, out) := ServeAll(r, requests);
      assert forall i :: 0 <= i < |before| ==> before[i] == requests[i] && out0[i] == out[i];
      if r1 == r0 && r0 != r {
        var i :| 0 <= i < |before| && before[i].Write? && before[i].ts == r0.ts && before[i].value == r0.value;
        assert requests[i] == before[i];
      } else if r1 != r0 {
        assert requests[|requests| - 1].Write?;
      }
    }
  }

  /** Each response answers its request from where the register is at that moment, and
      the request moves the register from there to where the next one finds it. */
  lemma {:induction false} ServesEach(r: Replica, requests: seq<Request>, i: nat)
    requires i < |requests|
    ensures ServeAll(r, requests[..0]).0 == r && requests[..|requests|] == requests
    ensures RightResponse(requests[i], ServeAll(r, requests[..i]).0, ServeAll(r, requests[..i + 1]).0,
                     ServeAll(r, requests).1[i])
  {
    var last := |requests| - 1;
    assert requests[..last + 1] == requests;
    if i < last {
      ServesEach(r, requests[..last], i);
      assert requests[..last][..i] == requests[..i] && requests[..last][..i + 1] == requests[..i + 1];
    }
  }

  /** A timestamp never goes down, so later responses are never behind earlier ones. */
  lemma {:induction false} ServerNeverGoesBack(r: Replica, requests: seq<Request>, m: nat, n: nat)
    requires m <= n <= |requests|
    ensures Le(ServeAll(r, requests[..m]).0.ts, ServeAll(r, requests[..n]).0.ts)
    decreases n - m
  {
    if m < n {
      ServerNeverGoesBack(r, requests, m, n - 1);
      assert requests[..n][..n - 1] == requests[..n - 1];
    }
  }

  /** The pairs that a sequence of requests writes. */
  function Written(requests: seq<Request>): set<(Timestamp, Value)> {
    set i | 0 <= i < |requests| && requests[i].Write? :: (requests[i].ts, requests[i].value)
  }

  /** Where the register ends depends neither on the order of the writes nor on how often
      each arrives, as long as a timestamp always comes with one value. */
  lemma OrderDoesNotMatter(r: Replica, p: seq<Request>, q: seq<Request>)
    requires Written(p) == Written(q)
    requires forall v, w, t :: {(t, v), (t, w)} <= Written(p) + {(r.ts, r.value)} ==> v == w
    ensures ServeAll(r, p).0 == ServeAll(r, q).0
  {
    var a, b := ServeAll(r, p).0, ServeAll(r, q).0;
    EndsAtGreatest(r, p);
    EndsAtGreatest(r, q);
    assert Le(a.ts, b.ts) && Le(b.ts, a.ts);
    assert (a.ts, a.value) in Written(p) + {(r.ts, r.value)} && (a.ts, b.value) in Written(p) + {(r.ts, r.value)};
  }

  lemma EndsAtGreatest(r: Replica, p: seq<Request>)
    ensures
      var a := ServeAll(r, p).0;
      var all := Written(p) + {(r.ts, r.value)};
      (a.ts, a.value) in all && (forall t, v :: (t, v) in all ==> Le(t, a.ts))
  {
    ServesLargest(r, p);
    var a := ServeAll(r, p).0;
    if a != r {
      var i :| 0 <= i < |p| && p[i].Write? && p[i].ts == a.ts && p[i].value == a.value;
      assert (p[i].ts, p[i].value) in Written(p);
    }
  }

  // ------------------------------------------------------------- classes

  /** The register behind the server's lock. */
  class MonotonicRegister {
    var value: Value
    var ts: Timestamp

    function Contents(): Replica
      reads this
    {
      Replica(value, ts)
    }

    constructor ()
      ensures Contents() == Replica(None, DEFAULT)
    {
      value, ts := None, DEFAULT;
    }

    /** Takes a write unless it is behind; answers where the register is then. */
    method Write(v: Value, t: Timestamp) returns (lb: Timestamp)
      modifies this
      ensures Contents() == if Lt(old(ts), t) then Replica(v, t) else old(Contents())
      ensures lb == ts && Le(t, lb) && Le(old(ts), lb)
    {
      if Lt(ts, t) {
        value, ts := v, t;
      }
      lb := ts;
    }
  }

  type Connection = nat

  /** What one connection does when it is looked at. */
  datatype Attempt = Received(request: Request, sent: bool) | NoRequest | Broken

  /** The requests among the attempts, in order. */
  function Requests(attempts: seq<Attempt>): seq<Request> {
    if attempts == [] then []
    else
      var a := attempts[|attempts| - 1];
      Requests(attempts[..|attempts| - 1]) + if a.Received? then [a.request] else []
  }

  /** Connections that broke, or on which a response could not be sent. */
  function Dropped(connected: seq<Connection>, attempts: seq<Attempt>): set<Connection>
    requires |connected| == |attempts|
  {
    set i | 0 <= i < |connected| && (attempts[i].Broken? || (attempts[i].Received? && !attempts[i].sent)) ::
        connected[i]
  }

  function Retained(connected: seq<Connection>, drop: set<Connection>): seq<Connection> {
    if connected == [] then []
    else
      var c := connected[|connected| - 1];
      Retained(connected[..|connected| - 1], drop) + if c in drop then [] else [c]
  }

  class RegisterServer {
    const register: MonotonicRegister
    var connected: seq<Connection>

    constructor ()
      ensures connected == [] && register.Contents() == Replica(None, DEFAULT) && fresh(register)
    {
      register := new MonotonicRegister();
      connected := [];
    }

    method Accept(c: Connection)
      modifies this`connected
      ensures connected == old(connected) + [c]
    {
      connected := connected + [c];
    }

    /** Dispatches on the kind of request. */
    method HandleRequest(request: Request) returns (response: Response)
      modifies register
      ensures (register.Contents(), response) == Handle(old(register.Contents()), request)
      ensures RightResponse(request, old(register.Contents()), register.Contents(), response)
    {
      match request
      case Get(_) => response := GetResponse(Reading(register.value, register.ts));
      case GetTimestamp(_) => response := TimestampResponse(register.ts);
      case Write(value, ts, _) =>
        var lb := register.Write(value, ts);
        response := WriteResponse(lb);
    }

    /** One round over the connections: serves at most one request of each, in order,
        then forgets the connections that failed. */
    method ServeRound(attempts: seq<Attempt>) returns (responses: seq<Response>)
      requires |attempts| == |connected|
      modifies register, this`connected
      ensures (register.Contents(), responses) == ServeAll(old(register.Contents()), Requests(attempts))
      ensures connected == Retained(old(connected), Dropped(old(connected), attempts))
      ensures forall c :: c in connected <==> c in old(connected) && NothingFailed(old(connected), attempts, c)
    {
      var drop: set<Connection> := {};
      responses := [];
      for idx := 0 to |connected|
        invariant connected == old(connected)
        invariant (register.Contents(), responses) == ServeAll(old(register.Contents()), Requests(attempts[..idx]))
        invariant drop == Dropped(connected[..idx], attempts[..idx])
      {
        RoundGrows(old(register.Contents()), attempts, idx);
        DroppedGrows(connected, attempts, idx);
        match attempts[idx] {
          case Received(request, sent) =>
            var response := HandleRequest(request);
            responses := responses + [response];
            if !sent {
              drop := drop + {connected[idx]};
            }
          case NoRequest =>
          case Broken =>
            drop := drop + {connected[idx]};
        }
      }
      assert attempts[..|attempts|] == attempts && connected[..|connected|] == connected;
      forall c { RoundRetains(connected, attempts, c); }
      connected := Retained(connected, drop);
    }
  }

  lemma RoundGrows(r: Replica, attempts: seq<Attempt>, idx: nat)
    requires idx < |attempts|
    ensures
      var p, q := Requests(attempts[..idx]), Requests(attempts[..idx + 1]);
      if attempts[idx].Received? then
        var (r0, out) := ServeAll(r, p);
        var (r1, response) := Handle(r0, attempts[idx].request);
        ServeAll(r, q) == (r1, out + [response])
      else q == p
  {
    assert attempts[..idx + 1][..idx] == attempts[..idx];
    var p, q := Requests(attempts[..idx]), Requests(attempts[..idx + 1]);
    if attempts[idx].Received? {
      assert q == p + [attempts[idx].request];
      assert q[..|q| - 1] == p;
    }
  }

  lemma DroppedGrows(connected: seq<Connection>, attempts: seq<Attempt>, idx: nat)
    requires |connected| == |attempts| && idx < |attempts|
    ensures
      var a := attempts[idx];
      Dropped(connected[..idx + 1], attempts[..idx + 1])
        == Dropped(connected[..idx], attempts[..idx])
           + if a.Broken? || (a.Received? && !a.sent) then {connected[idx]} else {}
  {
    var a, c := attempts[..idx + 1], connected[..idx + 1];
    forall x | x in Dropped(connected[..idx], attempts[..idx]) ensures x in Dropped(c, a) {
      var i :| 0 <= i < idx && (attempts[..idx][i].Broken?
          || (attempts[..idx][i].Received? && !attempts[..idx][i].sent))
               && connected[..idx][i] == x;
      assert a[i] == attempts[i] && c[i] == connected[i];
    }
    assert a[idx] == attempts[idx] && c[idx] == connected[idx];
  }

  /** The connection neither broke in this round nor left a response unsent. */
  ghost predicate NothingFailed(connected: seq<Connection>, attempts: seq<Attempt>, c: Connection)
    requires |connected| == |attempts|
  {
    forall i :: 0 <= i < |connected| && connected[i] == c ==>
      attempts[i].NoRequest? || (attempts[i].Received? && attempts[i].sent)
  }

  lemma RoundRetains(connected: seq<Connection>, attempts: seq<Attempt>, c: Connection)
    requires |connected| == |attempts|
    ensures c in Retained(connected, Dropped(connected, attempts)) <==>
            c in connected && NothingFailed(connected, attempts, c)
  {
    RetainedMeans(connected, Dropped(connected, attempts), c);
  }

  ghost predicate Increasing(at: seq<nat>, limit: nat) {
    && (forall i, j :: 0 <= i < j < |at| ==> at[i] < at[j])
    && (forall i :: 0 <= i < |at| ==> at[i] < limit)
  }

  /** The connections kept are those in certain places, in the order of the places; the
      places are exactly those of connections not dropped. */
  lemma {:induction false} RetainedInOrder(connected: seq<Connection>, drop: set<Connection>) returns (at: seq<nat>)
    ensures Increasing(at, |connected|)
    ensures forall n: nat :: n < |connected| ==> (n in at <==> connected[n] !in drop)
    ensures |at| == |Retained(connected, drop)|
    ensures forall i :: 0 <= i < |at| ==> Retained(connected, drop)[i] == connected[at[i]]
  {
    at := [];
    if connected != [] {
      var last := |connected| - 1;
      at := RetainedInOrder(connected[..last], drop);
      if connected[last] !in drop {
        at := at + [last];
      }
    }
  }

  /** The requests served are those received, in the order of the connections. */
  lemma {:induction false} RequestsInOrder(attempts: seq<Attempt>) returns (at: seq<nat>)
    ensures Increasing(at, |attempts|)
    ensures forall n: nat :: n < |attempts| ==> (n in at <==> attempts[n].Received?)
    ensures |at| == |Requests(attempts)|
    ensures forall i :: 0 <= i < |at| ==> attempts[at[i]].Received? && Requests(attempts)[i] == attempts[at[i]].request
  {
    at := [];
    if attempts != [] {
      var last := |attempts| - 1;
      at := RequestsInOrder(attempts[..last]);
      if attempts[last].Received? {
        at := at + [last];
      }
    }
  }

  /** A connection stays exactly as long as nothing failed on it or on one with its name,
      in its old place among the others. */
  lemma {:induction false} RetainedMeans(connected: seq<Connection>, drop: set<Connection>, c: Connection)
    ensures c in Retained(connected, drop) <==> c in connected && c !in drop
    ensures multiset(Retained(connected, drop))[c] == if c in drop then 0 else multiset(connected)[c]
  {
    if connected != [] {
      RetainedMeans(connected[..|connected| - 1], drop, c);
      assert connected == connected[..|connected| - 1] + [connected[|connected| - 1]];
    }
  }
}
