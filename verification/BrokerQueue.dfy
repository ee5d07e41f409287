/** The serving loop's part of the broker's state, updated in place. */
module BrokerQueue {
  import opened Broker

  class Queue {
    var fifo: seq<Request>
    var concPendings: int

    constructor ()
      ensures fifo == [] && concPendings == 0
    {
      fifo := [];
      concPendings := 0;
    }

    /** Under the queue's lock, with a request present: the one to serve next. */
    method GetRequest() returns (r: Request)
      requires fifo != []
      modifies this
      ensures exists i: nat :: ToTake(old(fifo), old(concPendings), i) && r == old(fifo)[i]
                         && fifo == old(fifo)[..i] + old(fifo)[i + 1..]
      ensures concPendings == old(concPendings)
        - if old(concPendings) != 0 && exists j :: 0 <= j < |old(fifo)| && MayPass(old(fifo), j) then 1 else 0
    {
      if concPendings != 0 {
        var pos := 0;
        while pos < |fifo|
          invariant pos <= |fifo| && fifo == old(fifo) && concPendings == old(concPendings)
          invariant forall j :: 0 <= j < pos ==> fifo[j].kind == Sequential
        {
          if fifo[pos].kind == Concurrent {
            assert MayPass(fifo, pos) && ToTake(fifo, concPendings, pos);
            r := fifo[pos];
            fifo := fifo[..pos] + fifo[pos + 1..];
            concPendings := concPendings - 1;
            return;
          } else if fifo[pos].kind == Mutex {
            break;
          }
          pos := pos + 1;
        }
      }
      assert ToTake(fifo, concPendings, 0);
      r := fifo[0];
      fifo := fifo[1..];
    }
  }
}
