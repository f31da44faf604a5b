/** The in-memory gateway: three maps and a counter under one mutex. */
module MemoryGateway {
  import opened Common
  import opened Models
  import opened Gateway
  import opened Text

  const RETURNED_DETAIL :=
    "Mock rollback adapter executed the revert workflow and returned a deterministic receipt."

  /** The store's state without Redis; `counter` is a 64-bit counter. */
  datatype Book = Book(
    counter: nat,
    receipts: map<string, ActionReceipt>,
    keyOf: map<string, string>,
    rolledBack: map<string, bool>)

  const EmptyBook := Book(0, map[], map[], map[])

  function ReceiptId(n: nat): string {
    "receipt-" + SixDigits(n)
  }

  function RollbackSpec(scenarios: Scenarios, b: Book, req: RollbackRequest, now: int): (Book, Outcome) {
    var key := ResolvePlaybookKey(req.playbookKey);
    if req.idempotencyKey in b.receipts then (b, Idempotent(b.receipts[req.idempotencyKey]))
    else if key !in scenarios then (b, UnknownScenario)
    else
      var n := Increment(b.counter);
      var receipt := BuildReceipt(req, scenarios[key], ReceiptId(n), RETURNED_DETAIL, now);
      (Book(n,
            b.receipts[req.idempotencyKey := receipt],
            b.keyOf[req.incidentId := req.idempotencyKey],
            b.rolledBack[req.incidentId := true]),
       Executed(receipt))
  }

  predicate RolledBack(b: Book, incidentId: string) {
    incidentId in b.rolledBack && b.rolledBack[incidentId]
  }

  function Marked(receipts: map<string, ActionReceipt>, k: string, status: string): map<string, ActionReceipt>
    requires k in receipts
  {
    receipts[k := receipts[k].(verificationStatus := status)]
  }

  function VerifySpec(scenarios: Scenarios, b: Book, req: VerifyRequest): (Book, VerifyOutcome) {
    var key := ResolvePlaybookKey(req.playbookKey);
    if key !in scenarios then (b, VerifyUnknown)
    else if !RolledBack(b, req.incidentId) then (b, Verdict(scenarios[key].before))
    else
      var after := scenarios[key].after;
      if req.incidentId in b.keyOf && b.keyOf[req.incidentId] in b.receipts then
        var k := b.keyOf[req.incidentId];
        (b.(receipts := Marked(b.receipts, k, after.status)), Verdict(after))
      else (b, Verdict(after))
  }

  // ------------------------------------------------------------ consistency

  predicate IssuedId(id: string, counter: nat) {
    exists n: nat | 1 <= n <= counter :: id == ReceiptId(n)
  }

  predicate ReceiptsOk(receipts: map<string, ActionReceipt>, counter: nat) {
    forall k | k in receipts ::
      && receipts[k].idempotencyKey == k
      && receipts[k].status == "executed"
      && IssuedId(receipts[k].receiptId, counter)
  }

  predicate IdsDistinct(receipts: map<string, ActionReceipt>) {
    forall j, k | j in receipts && k in receipts && j != k ::
      receipts[j].receiptId != receipts[k].receiptId
  }

  /** The flag is up exactly for the incidents that have a key, and those keys
      have receipts. */
  predicate IndexesOk(b: Book) {
    && b.rolledBack.Keys == b.keyOf.Keys
    && (forall i | i in b.rolledBack :: b.rolledBack[i])
    && (forall i | i in b.keyOf :: b.keyOf[i] in b.receipts)
  }

  /** The three maps and the counter agree. */
  predicate Consistent(b: Book) {
    && b.counter < TWO_TO_64
    && |b.receipts| == b.counter
    && WellStored(b)
    && IndexesOk(b)
  }

  lemma ReceiptIdInjective(m: nat, n: nat)
    requires ReceiptId(m) == ReceiptId(n)
    ensures m == n
  {
    assert ReceiptId(m)[|"receipt-"|..] == SixDigits(m);
    assert ReceiptId(n)[|"receipt-"|..] == SixDigits(n);
    SixDigitsRoundTrip(m);
    SixDigitsRoundTrip(n);
  }

  /** Receipts are never dropped and change in their verification status only. */
  predicate Keeps(b: Book, b': Book) {
    forall k | k in b.receipts :: k in b'.receipts && SameButVerification(b.receipts[k], b'.receipts[k])
  }

  lemma NewIdNotIssued(id: string, counter: nat)
    requires IssuedId(id, counter) && id == ReceiptId(counter + 1)
    ensures false
  {
    var n: nat :| 1 <= n <= counter && id == ReceiptId(n);
    ReceiptIdInjective(n, counter + 1);
  }

  lemma NewIdIsUnused(receipts: map<string, ActionReceipt>, counter: nat, key: string)
    requires ReceiptsOk(receipts, counter) && key in receipts
    ensures receipts[key].receiptId != ReceiptId(counter + 1)
  {
    assert IssuedId(receipts[key].receiptId, counter);
    if receipts[key].receiptId == ReceiptId(counter + 1) {
      NewIdNotIssued(receipts[key].receiptId, counter);
    }
  }

  lemma AddingAReceipt(receipts: map<string, ActionReceipt>, counter: nat, r: ActionReceipt)
    requires ReceiptsOk(receipts, counter) && IdsDistinct(receipts)
    requires r.idempotencyKey !in receipts && r.status == "executed" && r.receiptId == ReceiptId(counter + 1)
    ensures ReceiptsOk(receipts[r.idempotencyKey := r], counter + 1)
    ensures IdsDistinct(receipts[r.idempotencyKey := r])
  {
    var receipts' := receipts[r.idempotencyKey := r];
    forall k | k in receipts' ensures IssuedId(receipts'[k].receiptId, counter + 1) {
      if k in receipts {
        assert IssuedId(receipts[k].receiptId, counter);
        var n: nat :| 1 <= n <= counter && receipts[k].receiptId == ReceiptId(n);
      }
    }
    forall j | j in receipts ensures receipts[j].receiptId != r.receiptId {
      NewIdIsUnused(receipts, counter, j);
    }
  }

  lemma MarkingAReceipt(receipts: map<string, ActionReceipt>, counter: nat, k: string, status: string)
    requires k in receipts && ReceiptsOk(receipts, counter) && IdsDistinct(receipts)
    ensures var marked := Marked(receipts, k, status);
            && ReceiptsOk(marked, counter) && IdsDistinct(marked)
            && marked.Keys == receipts.Keys && |marked| == |receipts|
  {
    var marked := Marked(receipts, k, status);
    assert marked.Keys == receipts.Keys;
    assert |marked| == |marked.Keys| && |receipts| == |receipts.Keys|;
    assert forall j | j in marked :: marked[j].receiptId == receipts[j].receiptId;
  }

  lemma OneMoreReceipt(receipts: map<string, ActionReceipt>, r: ActionReceipt)
    requires r.idempotencyKey !in receipts
    ensures var receipts' := receipts[r.idempotencyKey := r];
            && receipts'.Keys == receipts.Keys + {r.idempotencyKey} && |receipts'| == |receipts| + 1
            && forall k | k in receipts :: k in receipts' && receipts'[k] == receipts[k]
  {
    var receipts' := receipts[r.idempotencyKey := r];
    assert receipts'.Keys == receipts.Keys + {r.idempotencyKey};
    assert |receipts'| == |receipts'.Keys| && |receipts| == |receipts.Keys|;
  }

  lemma IndexesStayOk(b: Book, incidentId: string, key: string, receipts': map<string, ActionReceipt>, n: nat)
    requires IndexesOk(b) && receipts'.Keys == b.receipts.Keys + {key}
    ensures IndexesOk(Book(n, receipts', b.keyOf[incidentId := key], b.rolledBack[incidentId := true]))
  {
  }

  predicate WellStored(b: Book) {
    ReceiptsOk(b.receipts, b.counter) && IdsDistinct(b.receipts)
  }

  lemma RollbackStores(scenarios: Scenarios, b: Book, req: RollbackRequest, now: int)
    requires WellStored(b) && b.counter + 1 < TWO_TO_64
    ensures WellStored(RollbackSpec(scenarios, b, req, now).0)
  {
    var (b', outcome) := RollbackSpec(scenarios, b, req, now);
    if outcome.Executed? { AddingAReceipt(b.receipts, b.counter, outcome.receipt); }
  }

  lemma RollbackIndexes(scenarios: Scenarios, b: Book, req: RollbackRequest, now: int)
    requires IndexesOk(b) && |b.receipts| == b.counter && b.counter + 1 < TWO_TO_64
    ensures var (b', outcome) := RollbackSpec(scenarios, b, req, now);
            && IndexesOk(b') && Keeps(b, b') && |b'.receipts| == b'.counter < TWO_TO_64
            && (!outcome.Executed? ==> b' == b)
            && (outcome.Executed? ==>
                  && b'.counter == b.counter + 1
                  && req.idempotencyKey !in b.receipts
                  && b'.receipts.Keys == b.receipts.Keys + {req.idempotencyKey}
                  && b'.keyOf == b.keyOf[req.incidentId := req.idempotencyKey])
  {
    var (b', outcome) := RollbackSpec(scenarios, b, req, now);
    if outcome.Executed? {
      OneMoreReceipt(b.receipts, outcome.receipt);
      IndexesStayOk(b, req.incidentId, req.idempotencyKey, b'.receipts, b'.counter);
    }
  }

  lemma RollbackStaysConsistent(scenarios: Scenarios, b: Book, req: RollbackRequest, now: int)
    requires Consistent(b) && b.counter + 1 < TWO_TO_64
    ensures var (b', outcome) := RollbackSpec(scenarios, b, req, now);
            && Consistent(b') && Keeps(b, b')
            && (!outcome.Executed? ==> b' == b)
            && (outcome.Executed? ==>
                  && b'.counter == b.counter + 1
                  && req.idempotencyKey !in b.receipts
                  && b'.receipts.Keys == b.receipts.Keys + {req.idempotencyKey}
                  && b'.keyOf == b.keyOf[req.incidentId := req.idempotencyKey])
  {
    RollbackStores(scenarios, b, req, now);
    RollbackIndexes(scenarios, b, req, now);
  }

  lemma VerifyStaysConsistent(scenarios: Scenarios, b: Book, req: VerifyRequest)
    requires Consistent(b)
    ensures var (b', outcome) := VerifySpec(scenarios, b, req);
            && Consistent(b') && Keeps(b, b')
            && b'.counter == b.counter && b'.keyOf == b.keyOf && b'.receipts.Keys == b.receipts.Keys
            && (outcome.VerifyUnknown? ==> b' == b)
            && (outcome.Verdict? ==>
                  && ResolvePlaybookKey(req.playbookKey) in scenarios
                  && outcome.result ==
                     var data := scenarios[ResolvePlaybookKey(req.playbookKey)];
                     if req.incidentId in b.keyOf then data.after else data.before)
            && !outcome.VerifyError?
  {
    var key := ResolvePlaybookKey(req.playbookKey);
    if key in scenarios && req.incidentId in b.keyOf {
      assert RolledBack(b, req.incidentId);
      MarkingAReceipt(b.receipts, b.counter, b.keyOf[req.incidentId], scenarios[key].after.status);
    }
  }

  // ------------------------------------------------------------ histories

  datatype Request =
    | DoRollback(req: RollbackRequest, now: int)
    | DoVerify(vreq: VerifyRequest)

  function Serve(scenarios: Scenarios, b: Book, request: Request): Book {
    match request
    case DoRollback(req, now) => RollbackSpec(scenarios, b, req, now).0
    case DoVerify(vreq) => VerifySpec(scenarios, b, vreq).0
  }

  function ServeAll(scenarios: Scenarios, b: Book, requests: seq<Request>): Book
    decreases |requests|
  {
    if requests == [] then b
    else Serve(scenarios, ServeAll(scenarios, b, requests[..|requests| - 1]), requests[|requests| - 1])
  }

  /** Every history shorter than the counter's range leaves the maps and the
      counter in agreement and keeps every receipt it ever handed out. */
  lemma {:induction false} HistoriesStayConsistent(scenarios: Scenarios, b: Book, requests: seq<Request>)
    requires Consistent(b) && b.counter + |requests| < TWO_TO_64
    ensures var b' := ServeAll(scenarios, b, requests);
            Consistent(b') && Keeps(b, b') && b'.counter <= b.counter + |requests|
    decreases |requests|
  {
    if requests != [] {
      var front := requests[..|requests| - 1];
      HistoriesStayConsistent(scenarios, b, front);
      var mid := ServeAll(scenarios, b, front);
      match requests[|requests| - 1] {
        case DoRollback(req, now) => RollbackStaysConsistent(scenarios, mid, req, now);
        case DoVerify(vreq) => VerifyStaysConsistent(scenarios, mid, vreq);
      }
    }
  }

  predicate StemsFrom(scenarios: Scenarios, request: Request, key: string, r: ActionReceipt) {
    request.DoRollback? && request.req.idempotencyKey == key &&
    Answers(scenarios, request.req, r.(verificationStatus := "")) && r.executedAt == request.now
  }

  lemma ServedReceiptStems(scenarios: Scenarios, b: Book, request: Request, key: string)
    requires var b' := Serve(scenarios, b, request); key in b'.receipts
    ensures var r := Serve(scenarios, b, request).receipts[key];
            if key in b.receipts then SameButVerification(b.receipts[key], r) else StemsFrom(scenarios, request, key, r)
  {
    if request.DoRollback? && ResolvePlaybookKey(request.req.playbookKey) in scenarios {
      BuiltAnswers(scenarios, request.req, ReceiptId(Increment(b.counter)), RETURNED_DETAIL, request.now);
    }
  }

  /** Over every history each receipt answers a rollback request under its own key:
      its service, executor and both revisions are that request's, and only its
      verification status may have changed since. */
  lemma {:induction false} ReceiptsStemFromRequests(scenarios: Scenarios, requests: seq<Request>, key: string)
    requires key in ServeAll(scenarios, EmptyBook, requests).receipts
    ensures var r := ServeAll(scenarios, EmptyBook, requests).receipts[key];
            exists i | 0 <= i < |requests| :: StemsFrom(scenarios, requests[i], key, r)
    decreases |requests|
  {
    if requests != [] {
      var last := |requests| - 1;
      var front := requests[..last];
      var b, r := ServeAll(scenarios, EmptyBook, front), ServeAll(scenarios, EmptyBook, requests).receipts[key];
      ServedReceiptStems(scenarios, b, requests[last], key);
      if key in b.receipts {
        ReceiptsStemFromRequests(scenarios, front, key);
        var i :| 0 <= i < last && StemsFrom(scenarios, front[i], key, b.receipts[key]);
        assert StemsFrom(scenarios, requests[i], key, r);
      } else {
        assert StemsFrom(scenarios, requests[last], key, r);
      }
    }
  }

  /** The same request sent twice, with anything in between, gets one receipt. */
  lemma RollbackIsIdempotent(scenarios: Scenarios, b: Book, req: RollbackRequest, now: int,
                             between: seq<Request>, later: RollbackRequest, retryAt: int)
    requires Consistent(b) && b.counter + 1 + |between| < TWO_TO_64
    requires later.idempotencyKey == req.idempotencyKey
    requires RollbackSpec(scenarios, b, req, now).1.Succeeded()
    ensures var (b1, first) := RollbackSpec(scenarios, b, req, now);
            var b2 := ServeAll(scenarios, b1, between);
            var (b3, second) := RollbackSpec(scenarios, b2, later, retryAt);
            b3 == b2 && second.Idempotent? && SameButVerification(first.receipt, second.receipt)
  {
    var (b1, first) := RollbackSpec(scenarios, b, req, now);
    RollbackStaysConsistent(scenarios, b, req, now);
    SuccessIsStored(scenarios, b, req, now);
    HistoriesStayConsistent(scenarios, b1, between);
    StoredKeyAnswers(scenarios, ServeAll(scenarios, b1, between), later, retryAt);
  }

  lemma SuccessIsStored(scenarios: Scenarios, b: Book, req: RollbackRequest, now: int)
    requires RollbackSpec(scenarios, b, req, now).1.Succeeded()
    ensures var (b', outcome) := RollbackSpec(scenarios, b, req, now);
            req.idempotencyKey in b'.receipts && b'.receipts[req.idempotencyKey] == outcome.receipt
  {
  }

  lemma StoredKeyAnswers(scenarios: Scenarios, b: Book, req: RollbackRequest, now: int)
    requires req.idempotencyKey in b.receipts
    ensures RollbackSpec(scenarios, b, req, now) == (b, Idempotent(b.receipts[req.idempotencyKey]))
  {
  }

  predicate Rollbacks(request: Request, incidentId: string) {
    request.DoRollback? && request.req.incidentId == incidentId
  }

  /** A recovered verdict is only ever given for an incident some earlier request
      rolled back, and the store then holds that executed receipt. */
  lemma {:induction false} RecoveredNeedsRollback(scenarios: Scenarios, requests: seq<Request>, vreq: VerifyRequest)
    requires NothingRecoveredBefore(scenarios) && |requests| < TWO_TO_64
    requires var b := ServeAll(scenarios, EmptyBook, requests);
             var (_, outcome) := VerifySpec(scenarios, b, vreq);
             outcome.Verdict? && outcome.result.status == "recovered"
    ensures exists i | 0 <= i < |requests| :: Rollbacks(requests[i], vreq.incidentId)
    ensures var b := ServeAll(scenarios, EmptyBook, requests);
            && vreq.incidentId in b.keyOf && b.keyOf[vreq.incidentId] in b.receipts
            && b.receipts[b.keyOf[vreq.incidentId]].status == "executed"
  {
    HistoriesStayConsistent(scenarios, EmptyBook, requests);
    var b := ServeAll(scenarios, EmptyBook, requests);
    VerifyStaysConsistent(scenarios, b, vreq);
    KeysComeFromRollbacks(scenarios, requests, vreq.incidentId);
  }

  lemma {:induction false} KeysComeFromRollbacks(scenarios: Scenarios, requests: seq<Request>, incidentId: string)
    requires incidentId in ServeAll(scenarios, EmptyBook, requests).keyOf
    ensures exists i | 0 <= i < |requests| :: Rollbacks(requests[i], incidentId)
    decreases |requests|
  {
    if requests != [] {
      var last := |requests| - 1;
      if incidentId in ServeAll(scenarios, EmptyBook, requests[..last]).keyOf {
        KeysComeFromRollbacks(scenarios, requests[..last], incidentId);
        var i :| 0 <= i < last && Rollbacks(requests[..last][i], incidentId);
        assert Rollbacks(requests[i], incidentId);
      } else {
        assert Rollbacks(requests[last], incidentId);
      }
    }
  }

  // ------------------------------------------------------------ the store

  class Store {
    var receiptSeq: nat
    var receiptsByKey: map<string, ActionReceipt>
    var receiptKeyByInc: map<string, string>
    var rolledBackByInc: map<string, bool>
    var redis: map<string, string>
    const hasRedis: bool
    const scenarios: Scenarios

    ghost function Contents(): Book
      reads this
    {
      Book(receiptSeq, receiptsByKey, receiptKeyByInc, rolledBackByInc)
    }

    ghost predicate Valid()
      reads this
    {
      Consistent(Contents())
    }

    constructor (hasRedis: bool, scenarios: Scenarios)
      ensures Valid() && Contents() == EmptyBook
      ensures this.hasRedis == hasRedis && this.scenarios == scenarios
    {
      this.receiptSeq, this.receiptsByKey := 0, map[];
      this.receiptKeyByInc, this.rolledBackByInc, this.redis := map[], map[], map[];
      this.hasRedis, this.scenarios := hasRedis, scenarios;
    }

    /** SETNX of the placeholder. */
    method TryLock(rkey: string, setNx: Reply) returns (locked: bool, err: bool)
      modifies this`redis
      ensures err == !setNx.Acknowledged? && locked == (rkey !in old(redis))
      ensures redis == if locked && !setNx.Refused? then old(redis)[rkey := PENDING] else old(redis)
      ensures redis - {rkey} == old(redis) - {rkey}
    {
      locked, err := rkey !in redis, !setNx.Acknowledged?;
      if locked && !setNx.Refused? {
        redis := redis[rkey := PENDING];
      }
    }

    /** SET the receipt id, and DEL the key when that fails. */
    method Publish(rkey: string, receiptId: string, publish: Reply, del: Reply)
      modifies this`redis
      ensures publish.Acknowledged? ==> redis == old(redis)[rkey := receiptId]
      ensures !publish.Acknowledged? && !del.Refused? ==> rkey !in redis
      ensures redis - {rkey} == old(redis) - {rkey}
    {
      if !publish.Refused? {
        redis := redis[rkey := receiptId];
      }
      if !publish.Acknowledged? {
        redis := RedisDelete(redis, rkey, del);
      }
    }

    /** `setNx`, `publish` and `del` are Redis' answers. They reach neither the reply
        nor the maps: both equal the specification, which has no Redis. */
    method Rollback(req: RollbackRequest, now: int, setNx: Reply, publish: Reply, del: Reply)
      returns (outcome: Outcome)
      requires Valid()
      modifies this
      ensures (Contents(), outcome) == RollbackSpec(scenarios, old(Contents()), req, now)
      ensures outcome.Executed? ==>
                && Answers(scenarios, req, outcome.receipt) && outcome.receipt.executedAt == now
                && req.idempotencyKey in receiptsByKey && receiptsByKey[req.idempotencyKey] == outcome.receipt
      ensures old(receiptSeq) + 1 < TWO_TO_64 ==> Valid()
      ensures !hasRedis || !outcome.Executed? ==> redis == old(redis)
      ensures var rkey := RollbackRedisKey(req.incidentId, req.targetService);
              && redis - {rkey} == old(redis) - {rkey}
              && (hasRedis && outcome.Executed? && publish.Acknowledged? ==>
                    rkey in redis && redis[rkey] == outcome.receipt.receiptId)
              && (hasRedis && outcome.Executed? && !publish.Acknowledged? && !del.Refused? ==> rkey !in redis)
    {
      hide Answers, Consistent, Keeps;
      if receiptSeq + 1 < TWO_TO_64 {
        RollbackStaysConsistent(scenarios, Contents(), req, now);
      }
      if req.idempotencyKey in receiptsByKey {
        return Idempotent(receiptsByKey[req.idempotencyKey]);
      }
      var key := ResolvePlaybookKey(req.playbookKey);
      if key !in scenarios {
        return UnknownScenario;
      }
      var rkey := RollbackRedisKey(req.incidentId, req.targetService);
      if hasRedis {
        var locked, err := TryLock(rkey, setNx);
        if !err && !locked {
          // The second lookup happens under the same mutex and cannot succeed.
          assert req.idempotencyKey !in receiptsByKey;
        }
      }
      outcome := Record(req, key, now);
      if hasRedis {
        Publish(rkey, outcome.receipt.receiptId, publish, del);
      }
    }

    method Record(req: RollbackRequest, key: string, now: int) returns (outcome: Outcome)
      requires key == ResolvePlaybookKey(req.playbookKey) && key in scenarios
      requires req.idempotencyKey !in receiptsByKey
      modifies this`receiptSeq, this`receiptsByKey, this`receiptKeyByInc, this`rolledBackByInc
      ensures (Contents(), outcome) == RollbackSpec(scenarios, old(Contents()), req, now)
      ensures outcome.Executed? && Answers(scenarios, req, outcome.receipt) && outcome.receipt.executedAt == now
      ensures req.idempotencyKey in receiptsByKey && receiptsByKey[req.idempotencyKey] == outcome.receipt
    {
      receiptSeq := Increment(receiptSeq);
      BuiltAnswers(scenarios, req, ReceiptId(receiptSeq), RETURNED_DETAIL, now);
      var receipt := BuildReceipt(req, scenarios[key], ReceiptId(receiptSeq), RETURNED_DETAIL, now);
      receiptsByKey := receiptsByKey[req.idempotencyKey := receipt];
      receiptKeyByInc := receiptKeyByInc[req.incidentId := req.idempotencyKey];
      rolledBackByInc := rolledBackByInc[req.incidentId := true];
      return Executed(receipt);
    }

    method Verify(req: VerifyRequest) returns (outcome: VerifyOutcome)
      requires Valid()
      modifies this`receiptsByKey
      ensures Valid()
      ensures (Contents(), outcome) == VerifySpec(scenarios, old(Contents()), req)
    {
      VerifyStaysConsistent(scenarios, Contents(), req);
      var key := ResolvePlaybookKey(req.playbookKey);
      if key !in scenarios {
        return VerifyUnknown;
      }
      var data := scenarios[key];
      if req.incidentId in rolledBackByInc && rolledBackByInc[req.incidentId] {
        if req.incidentId in receiptKeyByInc {
          var k := receiptKeyByInc[req.incidentId];
          if k in receiptsByKey {
            receiptsByKey := Marked(receiptsByKey, k, data.after.status);
          }
        }
        return Verdict(data.after);
      }
      return Verdict(data.before);
    }
  }
}
