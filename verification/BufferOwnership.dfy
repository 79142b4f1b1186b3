/** Who holds the buffers of a pool: the capture worker, the queue of a source, its create call,
    the elements downstream, or nobody, in which case the pool has them. The video and the audio
    path move buffers between these in the same way. */
module BufferOwnership {
  import opened Arithmetic

  /** acquired and released count the capture references taken from the pool and given back; the
      next three say who holds those not given back. downstream counts the references that create
      took for its output. */
  datatype Owners = Owners(
    acquired: multiset<nat>, released: multiset<nat>,
    worker: multiset<nat>, queued: multiset<nat>, create: multiset<nat>, downstream: multiset<nat>)

  /** The ways in which buffers move. left are the buffers a source drops when it enqueues. */
  datatype Move =
    | Stay
    | Acquired(id: nat)
    | GivenBack
    | Queued(left: multiset<nat>)
    | Picked(id: nat)
    | PassedOn
    | Emptied
    | Unreffed(id: nat)

  function Holders(o: Owners): multiset<nat> { o.worker + o.queued + o.create + o.downstream }

  function Moved(o: Owners, m: Move): Owners {
    match m
    case Stay => o
    case Acquired(id) => o.(acquired := o.acquired + multiset{id}, worker := o.worker + multiset{id})
    case GivenBack => o.(released := o.released + o.worker, worker := multiset{})
    case Queued(left) =>
      o.(released := o.released + left, queued := o.queued + o.worker - left, worker := multiset{})
    case Picked(id) => o.(queued := o.queued - multiset{id}, create := o.create + multiset{id})
    case PassedOn =>
      o.(released := o.released + o.create, downstream := o.downstream + o.create, create := multiset{})
    case Emptied => o.(released := o.released + o.queued, queued := multiset{})
    case Unreffed(id) => o.(downstream := o.downstream - multiset{id})
  }

  /** The pool hands out only buffers that nobody holds; the rest is the sources' doing. */
  predicate Possible(o: Owners, m: Move) {
    match m
    case Acquired(id) => id !in Holders(o)
    case Queued(left) => left <= o.queued + o.worker
    case Picked(id) => id in o.queued
    case _ => true
  }

  const NOBODY: Owners := Owners(multiset{}, multiset{}, multiset{}, multiset{}, multiset{}, multiset{})

  predicate MovesBy(o: Owners, o': Owners, m: Move) { Possible(o, m) && o' == Moved(o, m) }

  /** Every capture reference has been given back or is held, and no buffer is held twice. */
  ghost predicate Sound(o: Owners) {
    && o.acquired == o.released + o.worker + o.queued + o.create
    && (forall id :: Holders(o)[id] <= 1)
  }

  lemma SoundAtFirst()
    ensures Sound(NOBODY)
  {}

  /** A move leaves the holders as they were, except that buffers join or leave them. */
  lemma HoldersMove(o: Owners, m: Move)
    requires Possible(o, m)
    ensures m.Acquired? ==> Holders(Moved(o, m)) == Holders(o) + multiset{m.id}
    ensures !m.Acquired? ==> Holders(Moved(o, m)) <= Holders(o)
  {}

  lemma MoveConserves(o: Owners, m: Move)
    requires o.acquired == o.released + o.worker + o.queued + o.create && Possible(o, m)
    ensures var p := Moved(o, m); p.acquired == p.released + p.worker + p.queued + p.create
  {}

  lemma MoveKeepsSound(o: Owners, o': Owners, m: Move)
    requires Sound(o) && MovesBy(o, o', m)
    ensures Sound(o')
  {
    HoldersMove(o, m);
    MoveConserves(o, m);
  }

  /** References to a buffer: the capture references not given back, and those downstream. The
      buffer returns to the pool when there are none. */
  function References(o: Owners, id: nat): int {
    var acquired: int := o.acquired[id];
    acquired - o.released[id] + o.downstream[id]
  }

  /** Each capture reference is given back exactly once, and a buffer has exactly one owner: the
      worker, the queue, create, the elements downstream, or the pool. */
  ghost predicate OneOwner(o: Owners, id: nat) {
    var owners := (if id in o.worker then 1 else 0) + (if id in o.queued then 1 else 0)
                  + (if id in o.create then 1 else 0) + (if id in o.downstream then 1 else 0);
    && References(o, id) == owners <= 1
    && o.acquired[id] == o.released[id] + (if id in o.worker + o.queued + o.create then 1 else 0)
  }

  lemma SoundMeansOneOwner(o: Owners, id: nat)
    requires Sound(o)
    ensures OneOwner(o, id)
  {
    assert Holders(o)[id] == o.worker[id] + o.queued[id] + o.create[id] + o.downstream[id] <= 1;
  }

  function One(id: Option<nat>): multiset<nat> { if id.Some? then multiset{id.value} else multiset{} }

  // ------------------------------------------------------------------- moves of queues and logs

  /** References released so far: those in the log of the element, and those the worker gave back. */
  function Given(log: seq<nat>, returned: multiset<nat>): multiset<nat> { multiset(log) + returned }

  lemma GivenOneMore(log: seq<nat>, returned: multiset<nat>, id: nat)
    ensures Given(log + [id], returned) == Given(log, returned) + multiset{id}
  {
    assert multiset(log + [id]) == multiset(log) + multiset{id};
  }

  lemma GivenMore(log: seq<nat>, returned: multiset<nat>, left: seq<nat>)
    ensures Given(log + left, returned) == Given(log, returned) + multiset(left)
  {
    assert multiset(log + left) == multiset(log) + multiset(left);
  }

  /** The worker's buffer joins the end of a queue that loses its front. */
  lemma QueueMoves(before: seq<nat>, id: nat, left: seq<nat>, after: seq<nat>)
    requires before + [id] == left + after
    ensures multiset(left) <= multiset(before) + multiset{id}
    ensures multiset(after) == multiset(before) + multiset{id} - multiset(left)
  {
    assert multiset(before + [id]) == multiset(before) + multiset{id};
    assert multiset(left + after) == multiset(left) + multiset(after);
  }

  lemma HeadLeaves(before: seq<nat>, id: nat, after: seq<nat>)
    requires before == [id] + after
    ensures id in multiset(before) && multiset(after) == multiset(before) - multiset{id}
  {
    assert multiset([id] + after) == multiset{id} + multiset(after);
  }

  /** create picks the buffer at the head of the queue. */
  lemma HeadPicked(o: Owners, before: seq<nat>, id: nat, after: seq<nat>)
    requires o.queued == multiset(before) && o.create == multiset{} && before == [id] + after
    ensures MovesBy(o, o.(queued := multiset(after), create := multiset{id}), Picked(id))
  {
    HeadLeaves(before, id, after);
  }
}
