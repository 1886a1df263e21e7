/**
 What a client of the daemon reads from its socket: arrivals taken one after
 the other for as long as they can be taken.
 */
module Inbox {
  import opened Words
  import opened Vspd

  /** What a call into the socket brings: a frame, nothing in time, or the end of the connection. */
  datatype Arrival = Frame(bytes: seq<u8>) | Silence | Eof

  /** A frame that holds an event of the daemon. */
  predicate IsEventFrame(a: Arrival) {
    a.Frame? && Parse(a.bytes).Some? && !Parse(a.bytes).value.header.IsResponse()
  }

  /** A frame that holds a response of the daemon. */
  predicate IsResponseFrame(a: Arrival) {
    a.Frame? && Parse(a.bytes).Some? && Parse(a.bytes).value.header.IsResponse()
  }

  /** The response to request `requestId` of type `kind`. */
  predicate Answers(a: Arrival, kind: u8, requestId: u32, status: i32, payload: seq<u8>) {
    && IsResponseFrame(a)
    && (var f := Parse(a.bytes).value;
        f.header.kind == kind && f.header.requestId == requestId && f.header.status == status && f.payload == payload)
  }

  /** A response to something else. */
  predicate Foreign(a: Arrival, kind: u8, requestId: u32) {
    && IsResponseFrame(a)
    && (var f := Parse(a.bytes).value; f.header.kind != kind || f.header.requestId != requestId)
  }

  lemma OneAnswer(a: Arrival, kind: u8, requestId: u32, status: i32, payload: seq<u8>)
    requires Answers(a, kind, requestId, status, payload)
    ensures forall st, p :: Answers(a, kind, requestId, st, p) ==> st == status && p == payload
  {
    hide Parse;
  }

  /** The state once some arrivals have been taken in order; `None` if one of them is refused. */
  ghost function Absorbed<S>(take: (S, Arrival) -> Option<S>, s: S, frames: seq<Arrival>): Option<S> {
    if frames == [] then Some(s)
    else
      var n := |frames| - 1;
      match Absorbed(take, s, frames[..n])
      case None => None
      case Some(before) => take(before, frames[n])
  }

  /** How many arrivals are taken before the first that is refused. */
  ghost function Lead<S>(take: (S, Arrival) -> Option<S>, s: S, inbox: seq<Arrival>): (n: nat)
    ensures n <= |inbox| && Absorbed(take, s, inbox[..n]).Some?
    ensures n < |inbox| ==> Absorbed(take, s, inbox[..n + 1]).None?
  {
    assert inbox[..|inbox|] == inbox;
    if inbox == [] then 0
    else
      var last := |inbox| - 1;
      var n := Lead(take, s, inbox[..last]);
      assert inbox[..last][..n] == inbox[..n];
      assert n < last ==> inbox[..last][..n + 1] == inbox[..n + 1];
      if n == last && Absorbed(take, s, inbox).Some? then n + 1 else n
  }

  /** The state the arrivals at the start of the inbox lead to. */
  ghost function Led<S>(take: (S, Arrival) -> Option<S>, s: S, inbox: seq<Arrival>): S {
    Absorbed(take, s, inbox[..Lead(take, s, inbox)]).value
  }

  /** How many arrivals are read by a loop that ends with the first one refused. */
  ghost function Reads<S>(take: (S, Arrival) -> Option<S>, s: S, inbox: seq<Arrival>): (n: nat)
    ensures n <= |inbox|
  {
    var n := Lead(take, s, inbox);
    if n == |inbox| then n else n + 1
  }

  lemma AbsorbNone<S>(take: (S, Arrival) -> Option<S>, s: S)
    ensures Absorbed(take, s, []) == Some(s)
  {
  }

  lemma AbsorbOne<S>(take: (S, Arrival) -> Option<S>, s: S, inbox: seq<Arrival>, k: nat)
    requires k < |inbox| && Absorbed(take, s, inbox[..k]).Some?
    ensures Absorbed(take, s, inbox[..k + 1]) == take(Absorbed(take, s, inbox[..k]).value, inbox[k])
  {
    assert inbox[..k + 1][..k] == inbox[..k];
  }

  /** What is taken up to some arrival is taken up to every earlier one. */
  lemma {:induction false} AbsorbedBefore<S>(take: (S, Arrival) -> Option<S>, s: S, inbox: seq<Arrival>, j: nat, k: nat)
    requires j <= k <= |inbox| && Absorbed(take, s, inbox[..k]).Some?
    ensures Absorbed(take, s, inbox[..j]).Some?
    decreases k
  {
    if j < k {
      assert inbox[..k][..k - 1] == inbox[..k - 1];
      AbsorbedBefore(take, s, inbox, j, k - 1);
    }
  }

  /** There is one place only where taking ends. */
  lemma LeadIs<S>(take: (S, Arrival) -> Option<S>, s: S, inbox: seq<Arrival>, k: nat)
    requires k <= |inbox| && Absorbed(take, s, inbox[..k]).Some?
    ensures (k == |inbox| || Absorbed(take, s, inbox[..k + 1]).None?) <==> k == Lead(take, s, inbox)
  {
    hide Absorbed, Lead;
    var n := Lead(take, s, inbox);
    if k < n {
      AbsorbedBefore(take, s, inbox, k + 1, n);
    } else if n < k {
      AbsorbedBefore(take, s, inbox, n + 1, k);
    }
  }
}
