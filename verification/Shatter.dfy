/** Queueing the rows of a file: in batches, each halved as often as the queue's size limit needs. */
module Shatter {
  import opened Collections

  // ---------------------------------------------------------------- batches

  function Flatten<T>(batches: seq<seq<T>>): seq<T> {
    if batches == [] then [] else Flatten(batches[..|batches| - 1]) + batches[|batches| - 1]
  }

  lemma {:induction false} FlattenAppend<T>(a: seq<seq<T>>, b: seq<seq<T>>)
    ensures Flatten(a + b) == Flatten(a) + Flatten(b)
  {
    if b == [] {
      assert a + b == a;
    } else {
      assert (a + b)[..|a + b| - 1] == a + b[..|b| - 1];
      FlattenAppend(a, b[..|b| - 1]);
    }
  }

  lemma FlattenOne<T>(batch: seq<T>)
    ensures Flatten([batch]) == batch
  {
    assert [batch][..0] == [];
  }

  lemma FlattenSnoc<T>(a: seq<seq<T>>, batch: seq<T>)
    ensures Flatten(a + [batch]) == Flatten(a) + batch
  {
    FlattenAppend(a, [batch]);
    FlattenOne(batch);
  }

  datatype BatchError = SizeBelowOne | IncompleteBatch

  ghost predicate AllFull<T>(batches: seq<seq<T>>, n: nat) {
    forall i | 0 <= i < |batches| :: |batches[i]| == n
  }

  /** Batches of n rows each; only the last one may be shorter, and none is empty. */
  ghost predicate AreBatches<T>(batches: seq<seq<T>>, n: nat) {
    batches == [] || (AllFull(batches[..|batches| - 1], n) && 0 < |batches[|batches| - 1]| <= n)
  }

  lemma BatchesSnoc<T>(batches: seq<seq<T>>, batch: seq<T>, n: nat)
    requires AllFull(batches, n) && 0 < |batch| <= n
    ensures AreBatches(batches + [batch], n) && Flatten(batches + [batch]) == Flatten(batches) + batch
    ensures |batch| == n ==> AllFull(batches + [batch], n)
  {
    FlattenSnoc(batches, batch);
    assert (batches + [batch])[..|batches|] == batches;
  }

  /** How many rows are left over when full batches are taken. */
  function LeftOver(length: nat, n: nat): (r: nat)
    requires n >= 1
    ensures r < n && r <= length
  {
    if length < n then length else LeftOver(length - n, n)
  }

  /** batched: the batches that are yielded, and the error that ends them early. */
  method Batched<T>(rows: seq<T>, n: int, strict: bool) returns (batches: seq<seq<T>>, error: Option<BatchError>)
    ensures n < 1 ==> batches == [] && error == Some(SizeBelowOne)
    ensures n >= 1 ==> AreBatches(batches, n)
    ensures n >= 1 ==> error == if strict && LeftOver(|rows|, n) > 0 then Some(IncompleteBatch) else None
    ensures n >= 1 ==> Flatten(batches) == if error.None? then rows else rows[..|rows| - LeftOver(|rows|, n)]
  {
    hide AreBatches, AllFull, Flatten;
    batches, error := [], None;
    NoBatches<T>(n);
    if n < 1 {
      return [], Some(SizeBelowOne);
    }
    var i := 0;
    while i < |rows|
      invariant 0 <= i <= |rows|
      invariant AreBatches(batches, n) && Flatten(batches) == rows[..i]
      invariant i < |rows| ==> AllFull(batches, n)
      invariant LeftOver(|rows| - i, n) == LeftOver(|rows|, n) || (i == |rows| && !strict)
    {
      var batch := rows[i..Min(i + n, |rows|)];
      if strict && |batch| != n {
        return batches, Some(IncompleteBatch);
      }
      BatchesSnoc(batches, batch, n);
      assert rows[..i] + batch == rows[..i + |batch|];
      batches := batches + [batch];
      i := i + |batch|;
    }
    assert rows[..i] == rows;
  }

  lemma NoBatches<T>(n: int)
    ensures Flatten<T>([]) == []
    ensures n >= 1 ==> AreBatches<T>([], n) && AllFull<T>([], n)
  {
  }

  // ---------------------------------------------------------------- subdivision

  /** What happens when a message is put on the queue. */
  datatype Reply = Sent | TooLarge | OtherError

  /** The queue's replies: they may depend on the message and on how many were tried before. */
  type Broker<!Row> = (nat, seq<Row>) -> Reply

  datatype Outcome = Done | Unprocessable | Failed

  /** The messages on the queue, the number of attempts so far, and how the call ended. */
  datatype Queued<Row> = Queued(messages: seq<seq<Row>>, attempts: nat, outcome: Outcome)

  /** What one call adds: the messages sent, in order. */
  function Subdivide<Row>(broker: Broker<Row>, attempts: nat, batch: seq<Row>): Queued<Row>
    decreases |batch|
  {
    match broker(attempts, batch)
    case Sent => Queued([batch], attempts + 1, Done)
    case OtherError => Queued([], attempts + 1, Failed)
    case TooLarge =>
      var half := |batch| / 2;
      if half < 1 then Queued([], attempts + 1, Unprocessable)
      else
        var left := Subdivide(broker, attempts + 1, batch[..half]);
        if !left.outcome.Done? then left
        else
          var right := Subdivide(broker, left.attempts, batch[half..]);
          Queued(left.messages + right.messages, right.attempts, right.outcome)
  }

  lemma SubdivideUnfolds<Row>(broker: Broker<Row>, attempts: nat, batch: seq<Row>)
    ensures Subdivide(broker, attempts, batch) ==
            match broker(attempts, batch)
            case Sent => Queued([batch], attempts + 1, Done)
            case OtherError => Queued([], attempts + 1, Failed)
            case TooLarge =>
              var half := |batch| / 2;
              if half < 1 then Queued([], attempts + 1, Unprocessable)
              else
                var left := Subdivide(broker, attempts + 1, batch[..half]);
                if !left.outcome.Done? then left
                else
                  var right := Subdivide(broker, left.attempts, batch[half..]);
                  Queued(left.messages + right.messages, right.attempts, right.outcome)
  {
  }

  class JobsQueue<Row> {
    const broker: Broker<Row>
    var messages: seq<seq<Row>>
    var attempts: nat

    constructor (broker: Broker<Row>)
      ensures this.broker == broker && messages == [] && attempts == 0
    {
      this.broker, messages, attempts := broker, [], 0;
    }

    method ApplyAsync(message: seq<Row>) returns (reply: Reply)
      modifies this
      ensures reply == broker(old(attempts), message) && attempts == old(attempts) + 1
      ensures messages == if reply.Sent? then old(messages) + [message] else old(messages)
    {
      reply := broker(attempts, message);
      attempts := attempts + 1;
      if reply.Sent? {
        messages := messages + [message];
      }
    }

    /** _shatter_job_rows_with_subdivision */
    method ShatterJobRowsWithSubdivision(batch: seq<Row>) returns (outcome: Outcome)
      modifies this
      ensures var queued := Subdivide(broker, old(attempts), batch);
              && messages == old(messages) + queued.messages
              && attempts == queued.attempts && outcome == queued.outcome
      decreases |batch|
    {
      hide Subdivide;
      SubdivideUnfolds(broker, attempts, batch);
      var reply := ApplyAsync(batch);
      match reply
      case Sent =>
        outcome := Done;
      case OtherError =>
        outcome := Failed;
      case TooLarge =>
        var splitBatchSize := |batch| / 2;
        if splitBatchSize < 1 {
          return Unprocessable;
        }
        outcome := ShatterJobRowsWithSubdivision(batch[..splitBatchSize]);
        if outcome.Done? {
          outcome := ShatterJobRowsWithSubdivision(batch[splitBatchSize..]);
        }
    }

    /** The loop over the batches: an exception ends it. */
    method ShatterBatches(batches: seq<seq<Row>>) returns (outcome: Outcome)
      modifies this
      ensures var queued := ShatterAll(broker, old(attempts), batches);
              && messages == old(messages) + queued.messages
              && attempts == queued.attempts && outcome == queued.outcome
    {
      hide Subdivide;
      outcome := Done;
      var i := 0;
      assert batches[..0] == [];
      while i < |batches| && outcome.Done?
        invariant 0 <= i <= |batches|
        invariant messages == old(messages) + ShatterAll(broker, old(attempts), batches[..i]).messages
        invariant attempts == ShatterAll(broker, old(attempts), batches[..i]).attempts
        invariant outcome == ShatterAll(broker, old(attempts), batches[..i]).outcome
        decreases |batches| - i
      {
        outcome := ShatterJobRowsWithSubdivision(batches[i]);
        assert batches[..i + 1][..i] == batches[..i];
        i := i + 1;
      }
      StoppedBatches(broker, old(attempts), batches, i);
    }

    /** What process_job and process_incomplete_job do with the rows of the file. */
    method ShatterRows(rows: seq<Row>, shatterBatchSize: int)
        returns (outcome: Outcome, error: Option<BatchError>, ghost batches: seq<seq<Row>>)
      modifies this
      ensures shatterBatchSize < 1 ==> error == Some(SizeBelowOne) && outcome.Failed? && messages == old(messages)
      ensures shatterBatchSize >= 1 ==> error.None? && AreBatches(batches, shatterBatchSize) && Flatten(batches) == rows
      ensures shatterBatchSize >= 1 ==>
                var queued := ShatterAll(broker, old(attempts), batches);
                && messages == old(messages) + queued.messages
                && attempts == queued.attempts && outcome == queued.outcome
    {
      hide Subdivide, AreBatches, Flatten, ShatterAll;
      var yielded;
      yielded, error := Batched(rows, shatterBatchSize, false);
      batches, outcome := yielded, Failed;
      if error.None? {
        outcome := ShatterBatches(yielded);
      }
    }
  }

  /** The batches of one file, one after the other, up to the first that fails. */
  function ShatterAll<Row>(broker: Broker<Row>, attempts: nat, batches: seq<seq<Row>>): Queued<Row> {
    if batches == [] then Queued([], attempts, Done)
    else
      var before := ShatterAll(broker, attempts, batches[..|batches| - 1]);
      if !before.outcome.Done? then before
      else
        var last := Subdivide(broker, before.attempts, batches[|batches| - 1]);
        Queued(before.messages + last.messages, last.attempts, last.outcome)
  }

  lemma {:induction false} StoppedBatches<Row>(broker: Broker<Row>, attempts: nat, batches: seq<seq<Row>>, i: nat)
    requires i <= |batches|
    requires i == |batches| || !ShatterAll(broker, attempts, batches[..i]).outcome.Done?
    ensures ShatterAll(broker, attempts, batches) == ShatterAll(broker, attempts, batches[..i])
  {
    if i == |batches| {
      assert batches[..i] == batches;
    } else {
      assert batches[..|batches| - 1][..i] == batches[..i];
      StoppedBatches(broker, attempts, batches[..|batches| - 1], i);
    }
  }

  // ---------------------------------------------------------------- what is on the queue afterwards

  ghost predicate Accepted<Row(!new)>(broker: Broker<Row>, message: seq<Row>) {
    exists attempts :: broker(attempts, message) == Sent
  }

  /** What a call or a whole file leaves on the queue, whatever the queue replied: the rows are
      sent in order and up to some row; if the call succeeded they are all sent, and if a row was
      unprocessable, it is the next one, and it was too large on its own. */
  ghost predicate IsSoundFor<Row(!new)>(queued: Queued<Row>, broker: Broker<Row>, rows: seq<Row>) {
    && Flatten(queued.messages) <= rows
    && (forall m | m in queued.messages :: m != [] && Accepted(broker, m))
    && (queued.outcome.Done? ==> Flatten(queued.messages) == rows)
    && (queued.outcome.Unprocessable? ==>
          var k := |Flatten(queued.messages)|;
          k < |rows| && queued.attempts > 0 && broker(queued.attempts - 1, [rows[k]]) == TooLarge)
  }

  /** Two halves, one after the other. */
  lemma SoundAfter<Row(!new)>(broker: Broker<Row>, first: Queued<Row>, rows: seq<Row>, second: Queued<Row>,
                       more: seq<Row>)
    requires IsSoundFor(first, broker, rows) && first.outcome.Done? && IsSoundFor(second, broker, more)
    ensures IsSoundFor(Queued(first.messages + second.messages, second.attempts, second.outcome), broker, rows + more)
  {
    hide Accepted;
    FlattenAppend(first.messages, second.messages);
  }

  lemma SoundBefore<Row(!new)>(broker: Broker<Row>, first: Queued<Row>, rows: seq<Row>, more: seq<Row>)
    requires IsSoundFor(first, broker, rows) && !first.outcome.Done?
    ensures IsSoundFor(first, broker, rows + more)
  {
    hide Accepted;
  }

  lemma SoundSingle<Row(!new)>(broker: Broker<Row>, attempts: nat, batch: seq<Row>)
    requires batch != []
    ensures broker(attempts, batch) == Sent ==> IsSoundFor(Queued([batch], attempts + 1, Done), broker, batch)
    ensures broker(attempts, batch) == OtherError ==> IsSoundFor(Queued([], attempts + 1, Failed), broker, batch)
    ensures broker(attempts, batch) == TooLarge && |batch| == 1
         ==> IsSoundFor(Queued([], attempts + 1, Unprocessable), broker, batch)
  {
    FlattenOne(batch);
    if |batch| == 1 {
      assert batch == [batch[0]];
    }
  }

  lemma {:induction false} SubdivisionIsSound<Row(!new)>(broker: Broker<Row>, attempts: nat, batch: seq<Row>)
    requires batch != []
    ensures IsSoundFor(Subdivide(broker, attempts, batch), broker, batch)
    decreases |batch|
  {
    hide IsSoundFor;
    SoundSingle(broker, attempts, batch);
    var half := |batch| / 2;
    if broker(attempts, batch) == TooLarge && half >= 1 {
      assert batch[..half] + batch[half..] == batch;
      var left := Subdivide(broker, attempts + 1, batch[..half]);
      SubdivisionIsSound(broker, attempts + 1, batch[..half]);
      if left.outcome.Done? {
        SubdivisionIsSound(broker, left.attempts, batch[half..]);
        SoundAfter(broker, left, batch[..half], Subdivide(broker, left.attempts, batch[half..]), batch[half..]);
      } else {
        SoundBefore(broker, left, batch[..half], batch[half..]);
      }
    }
  }

  /** Subdivision ends within 2n - 1 attempts and n messages for n rows. A success with m messages
      takes exactly 2m - 1 attempts: each refused message stands for one more split. */
  lemma {:induction false} SubdivisionIsBounded<Row>(broker: Broker<Row>, attempts: nat, batch: seq<Row>)
    requires batch != []
    ensures var queued := Subdivide(broker, attempts, batch);
            && attempts < queued.attempts <= attempts + 2 * |batch| - 1
            && |queued.messages| <= |batch|
            && (queued.outcome.Done? ==> queued.attempts == attempts + 2 * |queued.messages| - 1)
    decreases |batch|
  {
    var half := |batch| / 2;
    if broker(attempts, batch) == TooLarge && half >= 1 {
      var left := Subdivide(broker, attempts + 1, batch[..half]);
      SubdivisionIsBounded(broker, attempts + 1, batch[..half]);
      if left.outcome.Done? {
        SubdivisionIsBounded(broker, left.attempts, batch[half..]);
      }
    }
  }

  lemma {:induction false} FileIsSound<Row(!new)>(broker: Broker<Row>, attempts: nat, batches: seq<seq<Row>>)
    requires forall b | b in batches :: b != []
    ensures IsSoundFor(ShatterAll(broker, attempts, batches), broker, Flatten(batches))
  {
    hide IsSoundFor, Subdivide;
    if batches == [] {
      EmptyIsSound(broker, attempts);
    } else {
      var front, last := batches[..|batches| - 1], batches[|batches| - 1];
      assert last in batches && forall b | b in front :: b in batches;
      FileIsSound(broker, attempts, front);
      var before := ShatterAll(broker, attempts, front);
      if before.outcome.Done? {
        SubdivisionIsSound(broker, before.attempts, last);
        SoundAfter(broker, before, Flatten(front), Subdivide(broker, before.attempts, last), last);
      } else {
        SoundBefore(broker, before, Flatten(front), last);
      }
    }
  }

  lemma EmptyIsSound<Row(!new)>(broker: Broker<Row>, attempts: nat)
    ensures IsSoundFor(Queued([], attempts, Done), broker, [])
  {
  }

  // ---------------------------------------------------------------- a queue with a size limit

  /** A queue that refuses exactly by size: no message with an oversize row fits, every other row
      fits on its own, and nothing else goes wrong. Several rows that are not oversize may or may
      not fit together. */
  ghost predicate LimitsSize<Row(!new)>(broker: Broker<Row>, oversize: Row -> bool) {
    && (forall attempts, m, r :: r in m && oversize(r) ==> broker(attempts, m) == TooLarge)
    && (forall attempts, m :: broker(attempts, m) != OtherError)
    && (forall attempts, r :: !oversize(r) ==> broker(attempts, [r]) == Sent)
  }

  /** The rows before the first oversize row. */
  function BeforeOversize<Row>(rows: seq<Row>, oversize: Row -> bool): seq<Row> {
    if rows == [] || oversize(rows[0]) then [] else [rows[0]] + BeforeOversize(rows[1..], oversize)
  }

  lemma {:induction false} BeforeOversizeIs<Row>(rows: seq<Row>, oversize: Row -> bool, k: nat)
    requires k <= |rows| && (forall i | 0 <= i < k :: !oversize(rows[i])) && (k < |rows| ==> oversize(rows[k]))
    ensures BeforeOversize(rows, oversize) == rows[..k]
  {
    if k == 0 {
    } else {
      BeforeOversizeIs(rows[1..], oversize, k - 1);
    }
  }

  lemma {:induction false} FlattenContains<T>(batches: seq<seq<T>>, i: nat) returns (b: nat)
    requires i < |Flatten(batches)|
    ensures b < |batches| && Flatten(batches)[i] in batches[b]
  {
    var front := batches[..|batches| - 1];
    if i < |Flatten(front)| {
      b := FlattenContains(front, i);
    } else {
      b := |batches| - 1;
    }
  }

  lemma {:induction false} NeverFails<Row(!new)>(broker: Broker<Row>, oversize: Row -> bool, attempts: nat,
                                          batch: seq<Row>)
    requires LimitsSize(broker, oversize)
    ensures !Subdivide(broker, attempts, batch).outcome.Failed?
    decreases |batch|
  {
    var half := |batch| / 2;
    if broker(attempts, batch) == TooLarge && half >= 1 {
      var left := Subdivide(broker, attempts + 1, batch[..half]);
      NeverFails(broker, oversize, attempts + 1, batch[..half]);
      NeverFails(broker, oversize, left.attempts, batch[half..]);
    }
  }

  lemma {:induction false} FileNeverFails<Row(!new)>(broker: Broker<Row>, oversize: Row -> bool, attempts: nat,
                                              batches: seq<seq<Row>>)
    requires LimitsSize(broker, oversize)
    ensures !ShatterAll(broker, attempts, batches).outcome.Failed?
  {
    hide Subdivide, LimitsSize;
    if batches == [] {
    } else {
      var front, last := batches[..|batches| - 1], batches[|batches| - 1];
      FileNeverFails(broker, oversize, attempts, front);
      NeverFails(broker, oversize, ShatterAll(broker, attempts, front).attempts, last);
    }
  }

  /** With a size limit, what is queued is the file up to its first oversize row. */
  lemma SentUpToOversize<Row(!new)>(queued: Queued<Row>, broker: Broker<Row>, oversize: Row -> bool, rows: seq<Row>)
    requires LimitsSize(broker, oversize) && IsSoundFor(queued, broker, rows) && !queued.outcome.Failed?
    ensures Flatten(queued.messages) == BeforeOversize(rows, oversize)
    ensures queued.outcome.Unprocessable? <==> exists r :: r in rows && oversize(r)
  {
    var k := |Flatten(queued.messages)|;
    forall i | 0 <= i < k ensures !oversize(rows[i]) {
      var b := FlattenContains(queued.messages, i);
      assert queued.messages[b] in queued.messages && Flatten(queued.messages)[i] == rows[i];
    }
    BeforeOversizeIs(rows, oversize, k);
    if queued.outcome.Unprocessable? {
      assert rows[k] in rows;
    }
  }

  /** Every row of the file is queued exactly once and in file order, whatever the batch size, if
      no row is oversize; otherwise the rows before the first oversize row are, and the call
      ends with UnprocessableJobRow. */
  lemma FileIsQueuedInOrder<Row(!new)>(broker: Broker<Row>, oversize: Row -> bool, attempts: nat, rows: seq<Row>,
                                       batches: seq<seq<Row>>, n: nat)
    requires LimitsSize(broker, oversize) && AreBatches(batches, n) && Flatten(batches) == rows && n >= 1
    ensures var queued := ShatterAll(broker, attempts, batches);
            && Flatten(queued.messages) == BeforeOversize(rows, oversize)
            && !queued.outcome.Failed?
            && (queued.outcome.Unprocessable? <==> exists r :: r in rows && oversize(r))
            && (queued.outcome.Done? ==> Flatten(queued.messages) == rows)
  {
    hide IsSoundFor, LimitsSize, ShatterAll, BeforeOversize;
    BatchesAreNotEmpty(batches, n);
    FileIsSound(broker, attempts, batches);
    FileNeverFails(broker, oversize, attempts, batches);
    SentUpToOversize(ShatterAll(broker, attempts, batches), broker, oversize, rows);
    DoneMeansAll(ShatterAll(broker, attempts, batches), broker, rows);
  }

  lemma DoneMeansAll<Row(!new)>(queued: Queued<Row>, broker: Broker<Row>, rows: seq<Row>)
    requires IsSoundFor(queued, broker, rows)
    ensures queued.outcome.Done? ==> Flatten(queued.messages) == rows
  {
  }

  lemma BatchesAreNotEmpty<T>(batches: seq<seq<T>>, n: nat)
    requires AreBatches(batches, n) && n >= 1
    ensures forall b | b in batches :: b != []
  {
    if batches != [] {
      assert forall i | 0 <= i < |batches| - 1 :: batches[..|batches| - 1][i] == batches[i];
    }
  }
}
