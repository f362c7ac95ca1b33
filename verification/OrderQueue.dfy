/** OrderQueueService: the main queue's jobs are keyed by a job id derived from the
    order id, those of the dead-letter queue by order id and millisecond; adding a job
    that is there changes nothing. */
module OrderQueue {
  import opened OrderStore

  type Jobs = map<OrderId, Payload>

  function Publish(jobs: Jobs, p: Payload): Jobs {
    if p.orderId in jobs then jobs else jobs[p.orderId := p]
  }

  datatype DeadLetter = DeadLetter(payload: Payload, failureReason: string, attempts: nat)

  /** `dlq-${orderId}-${Date.now()}` */
  datatype LetterId = LetterId(orderId: OrderId, at: nat)

  type Letters = map<LetterId, DeadLetter>

  function Bury(letters: Letters, letter: DeadLetter, now: nat): Letters {
    var id := LetterId(letter.payload.orderId, now);
    if id in letters then letters else letters[id := letter]
  }

  class OrderQueueService {
    var main: Jobs
    var dlq: Letters

    constructor ()
      ensures main == map[] && dlq == map[]
    {
      main, dlq := map[], map[];
    }

    method PublishOrder(p: Payload) returns (jobId: OrderId)
      modifies this`main
      ensures main == Publish(old(main), p) && jobId == p.orderId
      ensures main == if jobId in old(main) then old(main) else old(main)[jobId := p]
    {
      jobId := p.orderId;
      if jobId !in main {
        main := main[jobId := p];
      }
    }

    /** A second letter for one order in one millisecond is dropped. */
    method PublishToDlq(p: Payload, failureReason: string, attempts: nat, now: nat)
      modifies this`dlq
      ensures dlq == Bury(old(dlq), DeadLetter(p, failureReason, attempts), now)
      ensures var id := LetterId(p.orderId, now);
              dlq == if id in old(dlq) then old(dlq) else old(dlq)[id := DeadLetter(p, failureReason, attempts)]
    {
      var id := LetterId(p.orderId, now);
      if id !in dlq {
        dlq := dlq[id := DeadLetter(p, failureReason, attempts)];
      }
    }
  }
}
