/** The request body limit: bytes are counted as they stream to the application. */
module Limits {
  import opened Wrappers

  type Bytes = seq<bv8>

  datatype Message = Request(body: Bytes) | Disconnect | Other(kind: string)

  /** Bytes of body in a message stream. */
  function Total(ms: seq<Message>): nat {
    if ms == [] then 0
    else Total(ms[..|ms| - 1]) + if ms[|ms| - 1].Request? then |ms[|ms| - 1].body| else 0
  }

  /** The body itself. */
  function Body(ms: seq<Message>): Bytes {
    if ms == [] then []
    else Body(ms[..|ms| - 1]) + if ms[|ms| - 1].Request? then ms[|ms| - 1].body else []
  }

  lemma {:induction false} TotalIsLength(ms: seq<Message>)
    ensures Total(ms) == |Body(ms)|
    decreases |ms|
  {
    if ms != [] {
      TotalIsLength(ms[..|ms| - 1]);
    }
  }

  datatype Routing = Bypass | Reject | Limited

  /** The middleware's choice before it calls the application. */
  function Route(isHttp: bool, declared: Option<int>, maxBytes: int): Routing {
    if !isHttp || maxBytes <= 0 then Bypass
    else if declared.Some? && declared.value > maxBytes then Reject
    else Limited
  }

  /** What the application gets for the last message of a stream. */
  function Forwarded(ms: seq<Message>, maxBytes: int): Message
    requires ms != []
  {
    var m := ms[|ms| - 1];
    if m.Request? && Total(ms) > maxBytes then Disconnect else m
  }

  function Delivered(ms: seq<Message>, maxBytes: int): seq<Message> {
    if ms == [] then [] else Delivered(ms[..|ms| - 1], maxBytes) + [Forwarded(ms, maxBytes)]
  }

  /** The closure limited_receive and its counter, over one request. */
  class LimitedReceive {
    const maxBytes: int
    var seen: nat
    ghost var received: seq<Message>
    ghost var passed: seq<Message>

    ghost predicate Valid()
      reads this
    {
      seen == Total(received) && passed == Delivered(received, maxBytes)
    }

    constructor (maxBytes: int)
      ensures Valid() && received == [] && passed == [] && this.maxBytes == maxBytes
    {
      this.maxBytes := maxBytes;
      seen, received, passed := 0, [], [];
    }

    method Receive(message: Message) returns (r: Message)
      requires Valid()
      modifies this
      ensures Valid()
      ensures received == old(received) + [message] && passed == old(passed) + [r]
    {
      received := received + [message];
      assert received[..|received| - 1] == old(received);
      r := message;
      if message.Request? {
        seen := seen + |message.body|;
        if seen > maxBytes {
          r := Disconnect;
        }
      }
      passed := passed + [r];
    }
  }

  lemma {:induction false} TotalGrows(ms: seq<Message>, k: nat)
    requires k <= |ms|
    ensures Total(ms[..k]) <= Total(ms)
    decreases |ms|
  {
    if k == |ms| {
      assert ms[..k] == ms;
    } else {
      assert ms[..|ms| - 1][..k] == ms[..k];
      TotalGrows(ms[..|ms| - 1], k);
    }
  }

  lemma {:induction false} DeliveredTotal(ms: seq<Message>, maxBytes: int)
    requires maxBytes >= 0
    ensures |Delivered(ms, maxBytes)| == |ms|
    ensures Total(Delivered(ms, maxBytes)) <= maxBytes
    ensures Total(ms) <= maxBytes ==> Delivered(ms, maxBytes) == ms
  {
    if ms != [] {
      var n := |ms| - 1;
      DeliveredTotal(ms[..n], maxBytes);
      TotalGrows(ms, n);
      var out := Delivered(ms, maxBytes);
      assert out[..|out| - 1] == Delivered(ms[..n], maxBytes);
      assert ms == ms[..n] + [ms[n]];
    }
  }

  /** Over any stream the application never gets more body than the limit, and gets the
      stream unaltered exactly when its body stays within it. */
  lemma BodyNeverExceedsLimit(ms: seq<Message>, maxBytes: int)
    requires maxBytes > 0
    ensures |Body(Delivered(ms, maxBytes))| <= maxBytes
    ensures Delivered(ms, maxBytes) == ms <==> |Body(ms)| <= maxBytes
  {
    DeliveredTotal(ms, maxBytes);
    TotalIsLength(ms);
    TotalIsLength(Delivered(ms, maxBytes));
  }

  /** What the application sees of a request, if it is called at all. */
  function Seen(isHttp: bool, declared: Option<int>, maxBytes: int, ms: seq<Message>): Option<seq<Message>> {
    match Route(isHttp, declared, maxBytes)
    case Bypass => Some(ms)
    case Reject => None
    case Limited => Some(Delivered(ms, maxBytes))
  }

  /** The application is not called exactly for an HTTP request that declares more than a
      positive limit; without a limit, and for anything but HTTP, nothing is changed. */
  lemma RejectedIff(isHttp: bool, declared: Option<int>, maxBytes: int, ms: seq<Message>)
    ensures Seen(isHttp, declared, maxBytes, ms).None? <==>
            isHttp && maxBytes > 0 && declared.Some? && declared.value > maxBytes
    ensures !isHttp || maxBytes <= 0 ==> Seen(isHttp, declared, maxBytes, ms) == Some(ms)
  {
  }

  /** An absent or truthful Content-Length changes nothing about which requests get
      through whole; a lying one never lets more than the limit through. */
  lemma LimitHoldsWhateverIsDeclared(declared: Option<int>, maxBytes: int, ms: seq<Message>)
    requires maxBytes > 0
    ensures Seen(true, declared, maxBytes, ms).Some? ==> |Body(Seen(true, declared, maxBytes, ms).value)| <= maxBytes
    ensures declared.None? || declared.value == |Body(ms)| ==>
              (Seen(true, declared, maxBytes, ms) == Some(ms) <==> |Body(ms)| <= maxBytes)
  {
    BodyNeverExceedsLimit(ms, maxBytes);
  }

  lemma {:induction false} DeliveredAt(ms: seq<Message>, maxBytes: int, k: nat)
    requires k < |ms|
    ensures |Delivered(ms, maxBytes)| == |ms|
    ensures Delivered(ms, maxBytes)[k] == Forwarded(ms[..k + 1], maxBytes)
    decreases |ms|
  {
    var n := |ms| - 1;
    if k < n {
      DeliveredAt(ms[..n], maxBytes, k);
      assert ms[..n][..k + 1] == ms[..k + 1];
    } else {
      assert ms[..k + 1] == ms;
      if n > 0 {
        DeliveredAt(ms[..n], maxBytes, n - 1);
      }
    }
  }

  /** A message without body arrives as it was sent. */
  lemma OthersPass(ms: seq<Message>, maxBytes: int, k: nat)
    requires k < |ms| && !ms[k].Request?
    ensures k < |Delivered(ms, maxBytes)| && Delivered(ms, maxBytes)[k] == ms[k]
  {
    DeliveredAt(ms, maxBytes, k);
  }

  /** One with body arrives as it was sent or as a disconnect; it is cut exactly when the
      body up to it passes the limit, and then so is every later message that carries body. */
  lemma CutIsExact(ms: seq<Message>, maxBytes: int, k: nat, l: nat)
    requires k <= l < |ms| && ms[k].Request? && ms[l].Request?
    ensures |Delivered(ms, maxBytes)| == |ms|
    ensures Delivered(ms, maxBytes)[k] == if |Body(ms[..k + 1])| <= maxBytes then ms[k] else Disconnect
    ensures Delivered(ms, maxBytes)[k].Disconnect? ==> Delivered(ms, maxBytes)[l].Disconnect?
  {
    DeliveredAt(ms, maxBytes, k);
    DeliveredAt(ms, maxBytes, l);
    TotalIsLength(ms[..k + 1]);
    TotalGrows(ms[..l + 1], k + 1);
    assert ms[..l + 1][..k + 1] == ms[..k + 1];
  }
}
