/** The request-body limit: a declared length is refused up front, a streamed body is counted. */
module BodyLimit {
  import opened Decimals

  type Bytes = seq<bv8>

  datatype Incoming = RequestPart(body: Bytes) | Disconnect

  datatype Read = Passed(message: Incoming) | TooLarge

  datatype Handling = RefusedUpFront | Ran(results: seq<Read>)

  // ---- specification -----------------------------------------------------------------------

  /** The bytes of all parts, in order. */
  function Body(messages: seq<Incoming>): Bytes {
    if messages == [] then []
    else
      var last := messages[|messages| - 1];
      Body(messages[..|messages| - 1]) + if last.RequestPart? then last.body else []
  }

  /** A read fails iff it is of a part and the bytes up to and including it exceed the limit. */
  function ReadAt(messages: seq<Incoming>, limit: nat, i: nat): Read
    requires i < |messages|
  {
    if messages[i].RequestPart? && |Body(messages[..i + 1])| > limit then TooLarge else Passed(messages[i])
  }

  /** What the application gets, one read per message. */
  function Results(messages: seq<Incoming>, limit: nat): seq<Read> {
    seq(|messages|, i requires 0 <= i < |messages| => ReadAt(messages, limit, i))
  }

  /** Of several headers of one name the last one counts. */
  function ContentLength(headers: seq<(string, string)>): string {
    if headers == [] then ""
    else
      var last := headers[|headers| - 1];
      if last.0 == "content-length" then last.1 else ContentLength(headers[..|headers| - 1])
  }

  /** The declared length is read from the last header of that name, and is empty without one. */
  lemma {:induction false} DeclaredExactly(headers: seq<(string, string)>, k: nat)
    requires forall i | k < i < |headers| :: headers[i].0 != "content-length"
    ensures k < |headers| && headers[k].0 == "content-length" ==> ContentLength(headers) == headers[k].1
    ensures (forall i | 0 <= i < |headers| :: headers[i].0 != "content-length") ==> ContentLength(headers) == ""
  {
    if headers != [] {
      DeclaredExactly(headers[..|headers| - 1], k);
    }
  }

  predicate AllDigits(s: string) {
    s != "" && forall c | c in s :: IsDigit(c)
  }

  predicate DeclaredTooLarge(headers: seq<(string, string)>, limit: nat) {
    AllDigits(ContentLength(headers)) && Value(ContentLength(headers)) > limit
  }

  // ---- the middleware ----------------------------------------------------------------------

  /** `limited_receive` and the count it closes over. */
  class LimitedReceive {
    const limit: nat
    var received: nat
    ghost var arrived: seq<Incoming>

    ghost predicate Valid()
      reads this
    {
      received == |Body(arrived)|
    }

    constructor (limit: nat)
      ensures Valid() && this.limit == limit && arrived == []
    {
      this.limit, received, arrived := limit, 0, [];
    }

    method Receive(message: Incoming) returns (read: Read)
      requires Valid()
      modifies this
      ensures Valid() && arrived == old(arrived) + [message]
      ensures read == ReadAt(arrived, limit, |old(arrived)|)
    {
      arrived := arrived + [message];
      assert arrived[..|arrived| - 1] == old(arrived) && arrived[..|arrived|] == arrived;
      read := Passed(message);
      if message.RequestPart? {
        received := received + |message.body|;
        if received > limit {
          read := TooLarge;
        }
      }
    }
  }

  /** A request through the middleware, with an application that reads everything there is. */
  method Handle(kind: string, headers: seq<(string, string)>, messages: seq<Incoming>, maxBytes: nat)
    returns (handling: Handling)
    ensures kind != "http" ==>
              handling.Ran? && |handling.results| == |messages| &&
              forall i | 0 <= i < |messages| :: handling.results[i] == Passed(messages[i])
    ensures kind == "http" ==>
              handling == if DeclaredTooLarge(headers, maxBytes) then RefusedUpFront
                          else Ran(Results(messages, maxBytes))
  {
    if kind != "http" {
      return Ran(seq(|messages|, i requires 0 <= i < |messages| => Passed(messages[i])));
    }
    var declared := ContentLength(headers);
    if AllDigits(declared) && Value(declared) > maxBytes {
      return RefusedUpFront;
    }
    var limited := new LimitedReceive(maxBytes);
    var results: seq<Read> := [];
    var k := 0;
    while k < |messages|
      invariant 0 <= k <= |messages| && |results| == k
      invariant limited.Valid() && limited.limit == maxBytes && limited.arrived == messages[..k]
      invariant forall i | 0 <= i < k :: results[i] == ReadAt(messages, maxBytes, i)
    {
      var read := limited.Receive(messages[k]);
      assert messages[..k + 1][..k + 1] == messages[..k + 1];
      results := results + [read];
      k := k + 1;
    }
    assert results == Results(messages, maxBytes);
    handling := Ran(results);
  }

  // ---- what the application gets -----------------------------------------------------------

  /** The bytes of the reads that did not fail. */
  function Delivered(results: seq<Read>): Bytes {
    if results == [] then []
    else
      var last := results[|results| - 1];
      Delivered(results[..|results| - 1]) +
      if last.Passed? && last.message.RequestPart? then last.message.body else []
  }

  lemma BodyGrows(messages: seq<Incoming>, i: nat, j: nat)
    requires i <= j <= |messages|
    ensures Body(messages[..i]) <= Body(messages[..j])
    decreases j - i
  {
    if i < j {
      BodyGrows(messages, i, j - 1);
      assert messages[..j][..j - 1] == messages[..j - 1];
    }
  }

  /** From the first part that crosses the limit on, every read of a part fails. */
  lemma FailsFromTheFirst(messages: seq<Incoming>, limit: nat, i: nat, j: nat)
    requires i <= j < |messages| && Results(messages, limit)[i].TooLarge?
    ensures messages[j].RequestPart? ==> Results(messages, limit)[j].TooLarge?
    ensures messages[j].Disconnect? ==> Results(messages, limit)[j] == Passed(messages[j])
  {
    BodyGrows(messages, i + 1, j + 1);
  }

  lemma ResultsCut(messages: seq<Incoming>, limit: nat)
    requires messages != []
    ensures var n := |messages| - 1;
            && Results(messages, limit)[..n] == Results(messages[..n], limit)
            && Results(messages, limit)[n] ==
               if messages[n].RequestPart? && |Body(messages)| > limit then TooLarge else Passed(messages[n])
  {
    hide Body;
    var n := |messages| - 1;
    assert messages[..n + 1] == messages;
    forall i | 0 <= i < n
      ensures Results(messages, limit)[i] == Results(messages[..n], limit)[i]
    {
      assert messages[..n][..i + 1] == messages[..i + 1];
    }
  }

  lemma {:induction false} DeliveredIsPrefix(messages: seq<Incoming>, limit: nat)
    ensures var results := Results(messages, limit);
            && Delivered(results) <= Body(messages) && |Delivered(results)| <= limit
            && (|Body(messages)| <= limit ==> Delivered(results) == Body(messages))
  {
    if messages != [] {
      ResultsCut(messages, limit);
      DeliveredIsPrefix(messages[..|messages| - 1], limit);
      hide Results;
      var before, results := messages[..|messages| - 1], Results(messages, limit);
      assert Delivered(results[..|messages| - 1]) <= Body(before) <= Body(messages);
    }
  }

  lemma AllPassExactly(messages: seq<Incoming>, limit: nat)
    ensures (forall i | 0 <= i < |messages| :: Results(messages, limit)[i] == Passed(messages[i])) <==>
            |Body(messages)| <= limit
    decreases |messages|
  {
    hide Body;
    var n, results := |messages|, Results(messages, limit);
    assert messages[..n] == messages;
    if |Body(messages)| <= limit {
      forall i | 0 <= i < n
        ensures results[i] == Passed(messages[i])
      {
        BodyGrows(messages, i + 1, n);
      }
    } else {
      var i := FirstCrossing(messages, limit);
      assert results[i] == TooLarge;
    }
  }

  lemma {:induction false} FirstCrossing(messages: seq<Incoming>, limit: nat) returns (i: nat)
    requires |Body(messages)| > limit
    ensures i < |messages| && messages[i].RequestPart? && |Body(messages[..i + 1])| > limit
  {
    var n := |messages| - 1;
    assert messages[..n + 1] == messages;
    if messages[n].RequestPart? {
      i := n;
    } else {
      i := FirstCrossing(messages[..n], limit);
      assert messages[..n][..i + 1] == messages[..i + 1];
    }
  }

  /** What the application gets is an unchanged prefix of the body, of at most the limit; and all of
      it, with no failed read, iff the whole body is within the limit. */
  lemma DeliversPrefix(messages: seq<Incoming>, limit: nat)
    ensures var results := Results(messages, limit);
            && Delivered(results) <= Body(messages)
            && |Delivered(results)| <= limit
            && ((forall i | 0 <= i < |messages| :: results[i] == Passed(messages[i])) <==> |Body(messages)| <= limit)
            && (|Body(messages)| <= limit ==> Delivered(results) == Body(messages))
  {
    hide Results, Body, Delivered;
    DeliveredIsPrefix(messages, limit);
    AllPassExactly(messages, limit);
  }

  /** When the declared length is the true one, refusing up front and refusing while streaming
      reject the same requests. */
  lemma BothRefuseTheSame(headers: seq<(string, string)>, messages: seq<Incoming>, limit: nat)
    requires AllDigits(ContentLength(headers)) && Value(ContentLength(headers)) == |Body(messages)|
    ensures DeclaredTooLarge(headers, limit) <==> TooLarge in Results(messages, limit)
  {
    DeliversPrefix(messages, limit);
    var results := Results(messages, limit);
    if TooLarge !in results {
      forall i | 0 <= i < |messages|
        ensures results[i] == Passed(messages[i])
      {
        assert results[i] in results;
      }
    }
  }
}
