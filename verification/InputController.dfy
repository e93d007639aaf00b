/**
 The console input queue: a producer thread appends lines, the server's thread checks and then
 reads, each under its own lock.  Every locked call therefore lets the producer run first: it
 takes the next batch of `future` lines.
 */
module InputQueue {
  const QUIT := "/quit"

  datatype Input = Input(
    queue: seq<string>,          // added, not yet read
    future: seq<seq<string>>,    // what the producer still adds, one batch per locked call
    added: seq<string>,          // every line added so far
    taken: seq<string>           // every line read so far
  )

  function Flatten(batches: seq<seq<string>>): seq<string> {
    if batches == [] then [] else batches[0] + Flatten(batches[1..])
  }

  /** The whole input: read, waiting and still to come. */
  function Lines(i: Input): seq<string> {
    i.taken + i.queue + Flatten(i.future)
  }

  function Enqueue(i: Input, line: string): Input {
    i.(queue := i.queue + [line], added := i.added + [line])
  }

  function AddAll(i: Input, lines: seq<string>): Input
    decreases |lines|
  {
    if lines == [] then i else AddAll(Enqueue(i, lines[0]), lines[1..])
  }

  /** The producer's turn. */
  function Produce(i: Input): Input {
    if i.future == [] then i else AddAll(i, i.future[0]).(future := i.future[1..])
  }

  function Check(i: Input): (Input, bool) {
    var p := Produce(i);
    (p, p.queue != [])
  }

  datatype Line = EmptyQueue | Line(text: string)

  /** Reading an empty queue is undefined in the source and is reported as `EmptyQueue`. */
  function Read(i: Input): (Input, Line) {
    var p := Produce(i);
    if p.queue == [] then (p, EmptyQueue)
    else (p.(queue := p.queue[1..], taken := p.taken + [p.queue[0]]), Line(p.queue[0]))
  }

  /** How many lines are still unread, now or ever. */
  function Unread(i: Input): nat {
    |i.queue| + |Flatten(i.future)|
  }

  /** Nothing lost, duplicated or reordered. */
  ghost predicate Fifo(i: Input) {
    i.taken + i.queue == i.added
  }

  // ---------------------------------------------------------------- lemmas

  lemma {:induction false} AddAllAppends(i: Input, lines: seq<string>)
    ensures AddAll(i, lines) == i.(queue := i.queue + lines, added := i.added + lines)
    decreases |lines|
  {
    if lines == [] {
      assert i.queue + lines == i.queue && i.added + lines == i.added;
    } else {
      var j := Enqueue(i, lines[0]);
      AddAllAppends(j, lines[1..]);
      assert j.queue + lines[1..] == i.queue + lines;
      assert j.added + lines[1..] == i.added + lines;
    }
  }

  /** A producer step moves lines from the future to the back of the queue and nothing else. */
  lemma ProduceConserves(i: Input)
    ensures var p := Produce(i);
      && Lines(p) == Lines(i) && Unread(p) == Unread(i) && p.taken == i.taken
      && i.queue <= p.queue && (Fifo(i) ==> Fifo(p))
  {
    if i.future != [] {
      var p := Produce(i);
      AddAllAppends(i, i.future[0]);
      assert Lines(p) == Lines(i);
      assert i.taken + (i.queue + i.future[0]) == i.taken + i.queue + i.future[0];
    }
  }

  lemma CheckConserves(i: Input)
    ensures var c := Check(i);
      && Lines(c.0) == Lines(i) && Unread(c.0) == Unread(i) && c.0.taken == i.taken
      && (c.1 <==> c.0.queue != []) && (Fifo(i) ==> Fifo(c.0))
  {
    ProduceConserves(i);
  }

  /**
   Check-then-read is safe: a read after a successful check never finds the queue empty, whatever
   the producer does in between, and hands over the next line of the whole input.
   */
  lemma ReadAfterCheck(i: Input)
    requires i.queue != []
    ensures var r := Read(i);
      && r.1 == Line(i.queue[0]) && r.0.taken == i.taken + [i.queue[0]]
      && Lines(r.0) == Lines(i) && Unread(r.0) < Unread(i) && (Fifo(i) ==> Fifo(r.0))
  {
    ProduceConserves(i);
    var p, r := Produce(i), Read(i).0;
    assert p.queue[0] == i.queue[0];
    assert r.taken + r.queue == p.taken + p.queue;
  }

  /** The source's queue object; the ghost fields record the whole run of the producer. */
  class InputController {
    var queue: seq<string>
    var future: seq<seq<string>>
    ghost var added: seq<string>
    ghost var taken: seq<string>

    ghost function View(): Input
      reads this
    {
      Input(queue, future, added, taken)
    }

    constructor (future: seq<seq<string>>)
      ensures View() == Input([], future, [], [])
    {
      queue, this.future, added, taken := [], future, [], [];
    }

    method AddInput(line: string)
      modifies this
      ensures View() == Enqueue(old(View()), line)
    {
      queue := queue + [line];
      added := added + [line];
    }

    /** The polling thread delivers its next batch, one line at a time. */
    method RunProducer()
      modifies this
      ensures View() == Produce(old(View()))
    {
      if future != [] {
        var batch := future[0];
        AddAllAppends(View(), batch);
        for k := 0 to |batch|
          invariant View() == old(View()).(queue := old(queue) + batch[..k], added := old(added) + batch[..k])
        {
          AddInput(batch[k]);
          assert batch[..k + 1] == batch[..k] + [batch[k]];
        }
        assert batch[..|batch|] == batch;
        future := future[1..];
      }
    }

    method InputAvailable() returns (available: bool)
      modifies this
      ensures (View(), available) == Check(old(View()))
    {
      RunProducer();
      available := queue != [];
    }

    method ReadInput() returns (line: string)
      requires queue != []
      modifies this
      ensures (View(), Line(line)) == Read(old(View()))
    {
      ghost var before := View();
      ProduceConserves(before);
      RunProducer();
      line := queue[0];
      queue := queue[1..];
      taken := taken + [line];
    }
  }
}
