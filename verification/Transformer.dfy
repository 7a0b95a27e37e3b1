/** Fan-out to the transformation service: batches go out in order, answers come back in any order, and the
    result is as if the batches had been transformed one after the other. */
module Transformer {
  import opened Common

  /** An event as it is sent: its message with the source it came from. */
  datatype Event = Event(sourceID: string, message: string)

  /** What the service answers: an array for a one-to-many transformation, anything for a one-to-one. */
  datatype Value = Array(items: seq<Value>) | Scalar(text: string)

  datatype Data = Batch(events: seq<Event>) | Single(event: Event)

  /** `index` is the number of events taken when the batch was made. */
  datatype Message = Message(index: int, data: Data)
  datatype Response = Response(index: int, data: Option<Value>)

  // ---------- what is sent ----------

  function EndOf(n: nat, batchSize: int, from: nat): nat
    requires from <= n && (batchSize <= 0 ==> from < n)
  {
    if batchSize <= 0 then from + 1 else if from + batchSize <= n then from + batchSize else n
  }

  function DataOf(events: seq<Event>, batchSize: int, from: nat): Data
    requires from <= |events| && (batchSize <= 0 ==> from < |events|)
  {
    if batchSize <= 0 then Single(events[from]) else Batch(events[from..EndOf(|events|, batchSize, from)])
  }

  /** The messages for the events from `from` on. There is always at least one. */
  function Plan(events: seq<Event>, batchSize: int, from: nat): seq<Message>
    requires from <= |events| && (batchSize <= 0 ==> from < |events|)
    decreases |events| - from
  {
    var end := EndOf(|events|, batchSize, from);
    [Message(end, DataOf(events, batchSize, from))] + if end == |events| then [] else Plan(events, batchSize, end)
  }

  function EventsOf(d: Data): seq<Event> {
    match d
    case Batch(events) => events
    case Single(event) => [event]
  }

  function AllEvents(q: seq<Message>): seq<Event> {
    if q == [] then [] else EventsOf(q[0].data) + AllEvents(q[1..])
  }

  lemma {:induction false} PlanEvents(events: seq<Event>, batchSize: int, from: nat)
    requires from <= |events| && (batchSize <= 0 ==> from < |events|)
    ensures AllEvents(Plan(events, batchSize, from)) == events[from..]
    decreases |events| - from
  {
    var end, q := EndOf(|events|, batchSize, from), Plan(events, batchSize, from);
    assert EventsOf(q[0].data) == events[from..end];
    if end < |events| {
      assert q[1..] == Plan(events, batchSize, end);
      PlanEvents(events, batchSize, end);
      assert events[from..end] + events[end..] == events[from..];
    } else {
      assert q[1..] == [];
    }
  }

  lemma {:induction false} PlanIndices(events: seq<Event>, batchSize: int, from: nat)
    requires from <= |events| && (batchSize <= 0 ==> from < |events|)
    ensures var q := Plan(events, batchSize, from);
      && q != [] && q[|q| - 1].index == |events|
      && (forall k :: 0 <= k < |q| ==> q[k].index > from || |events| == from)
      && (forall j, k :: 0 <= j < k < |q| ==> q[j].index < q[k].index)
    decreases |events| - from
  {
    hide DataOf;
    var end, q := EndOf(|events|, batchSize, from), Plan(events, batchSize, from);
    if end < |events| {
      var rest := Plan(events, batchSize, end);
      PlanIndices(events, batchSize, end);
      assert q == [q[0]] + rest;
      forall k | 1 <= k < |q| ensures q[k] == rest[k - 1] {}
    }
  }

  lemma {:induction false} PlanSizes(events: seq<Event>, batchSize: int, from: nat)
    requires from <= |events| && (batchSize <= 0 ==> from < |events|)
    ensures forall m :: m in Plan(events, batchSize, from) ==>
      |EventsOf(m.data)| <= if batchSize <= 0 then 1 else batchSize
    decreases |events| - from
  {
    var end, q := EndOf(|events|, batchSize, from), Plan(events, batchSize, from);
    assert |EventsOf(q[0].data)| == end - from;
    if end < |events| {
      PlanSizes(events, batchSize, end);
      assert q == [q[0]] + Plan(events, batchSize, end);
    }
  }

  /** The batches partition the events in order, none is larger than asked for, and the indices increase strictly
      up to the number of events. */
  lemma PlanPartitions(events: seq<Event>, batchSize: int)
    requires batchSize <= 0 ==> |events| > 0
    ensures var q := Plan(events, batchSize, 0);
      && AllEvents(q) == events
      && (forall m :: m in q ==> |EventsOf(m.data)| <= if batchSize <= 0 then 1 else batchSize)
      && q != [] && q[|q| - 1].index == |events|
      && (forall j, k :: 0 <= j < k < |q| ==> q[j].index < q[k].index)
  {
    PlanEvents(events, batchSize, 0);
    PlanIndices(events, batchSize, 0);
    PlanSizes(events, batchSize, 0);
  }

  // ---------- what is returned ----------

  type Service = Data -> Option<Value>

  ghost function Answer(f: Service, m: Message): Response {
    Response(m.index, f(m.data))
  }

  ghost function Answers(f: Service, q: seq<Message>): seq<Response> {
    seq(|q|, k requires 0 <= k < |q| => Answer(f, q[k]))
  }

  /** The events one answer contributes; a batch that is refused vanishes or leaves a gap. */
  function Part(data: Option<Value>, oneToMany: bool): seq<Option<Value>>
    requires oneToMany && data.Some? ==> data.value.Array?
  {
    if data == None then (if oneToMany then [] else [None])
    else if oneToMany then seq(|data.value.items|, k requires 0 <= k < |data.value.items| => Some(data.value.items[k]))
    else [data]
  }

  ghost predicate Answerable(f: Service, oneToMany: bool) {
    oneToMany ==> forall d :: f(d).Some? ==> f(d).value.Array?
  }

  /** The transformation applied to consecutive batches, flattened. */
  ghost function Applied(f: Service, events: seq<Event>, batchSize: int, oneToMany: bool): seq<Option<Value>>
    requires Answerable(f, oneToMany) && (batchSize <= 0 ==> |events| > 0)
    decreases |events|
  {
    var n := if batchSize <= 0 then 1 else if batchSize <= |events| then batchSize else |events|;
    Part(f(if batchSize <= 0 then Single(events[0]) else Batch(events[..n])), oneToMany)
    + if n == |events| then [] else Applied(f, events[n..], batchSize, oneToMany)
  }

  ghost function Flattened(q: seq<Response>, oneToMany: bool): seq<Option<Value>>
    requires forall k :: 0 <= k < |q| ==> oneToMany && q[k].data.Some? ==> q[k].data.value.Array?
  {
    if q == [] then [] else Part(q[0].data, oneToMany) + Flattened(q[1..], oneToMany)
  }

  lemma {:induction false} PlanApplied(f: Service, events: seq<Event>, batchSize: int, oneToMany: bool, from: nat)
    requires Answerable(f, oneToMany) && from <= |events| && (batchSize <= 0 ==> from < |events|)
    ensures Flattened(Answers(f, Plan(events, batchSize, from)), oneToMany) ==
      Applied(f, events[from..], batchSize, oneToMany)
    decreases |events| - from
  {
    var end, q, rest := EndOf(|events|, batchSize, from), Plan(events, batchSize, from), events[from..];
    var n := if batchSize <= 0 then 1 else if batchSize <= |rest| then batchSize else |rest|;
    assert end == from + n;
    assert DataOf(events, batchSize, from) == if batchSize <= 0 then Single(rest[0]) else Batch(rest[..n]) by {
      assert events[from..end] == rest[..n];
    }
    PlanHead(events, batchSize, from);
    assert rest[n..] == events[end..];
    hide Plan, DataOf, Part, Answerable, EndOf;
    var a := Answers(f, q);
    assert a[0].data == f(DataOf(events, batchSize, from));
    if end < |events| {
      PlanApplied(f, events, batchSize, oneToMany, end);
      assert a[1..] == Answers(f, Plan(events, batchSize, end));
    } else {
      assert a[1..] == [];
    }
  }

  // ---------- where every element stands ----------

  ghost function Step(batchSize: int): (n: nat)
    ensures n > 0
  {
    if batchSize <= 0 then 1 else batchSize
  }

  ghost function Least(a: nat, b: nat): nat {
    if a <= b then a else b
  }

  /** How many batches there are for n events: even no event at all makes one. */
  ghost function BatchCount(n: nat, batchSize: int): (count: nat)
    ensures batchSize <= 0 && n > 0 ==> count == n
  {
    if n <= Step(batchSize) then 1 else 1 + BatchCount(n - Step(batchSize), batchSize)
  }

  /** The k-th batch. */
  ghost function BatchAt(events: seq<Event>, batchSize: int, k: nat): Data
    requires batchSize <= 0 ==> k < |events|
  {
    if batchSize <= 0 then Single(events[k])
    else Batch(events[Least(k * batchSize, |events|)..Least(k * batchSize + batchSize, |events|)])
  }

  /** The elements of an answer; a batch without an answer has none. */
  ghost function Items(answer: Option<Value>): seq<Value> {
    if answer.Some? && answer.value.Array? then answer.value.items else []
  }

  /** How many elements the first k batches are answered with. */
  ghost function Before(f: Service, events: seq<Event>, batchSize: int, k: nat): nat
    requires batchSize <= 0 ==> k <= |events|
  {
    if k == 0 then 0
    else Before(f, events, batchSize, k - 1) + |Items(f(BatchAt(events, batchSize, k - 1)))|
  }

  /** One-to-many: the elements answered for a batch stand behind those answered for all batches before it. One-to-one:
      the k-th event is the answer to the k-th batch, if there is one. */
  ghost predicate Placed(f: Service, events: seq<Event>, batchSize: int, oneToMany: bool, out: seq<Option<Value>>)
    requires batchSize <= 0 ==> |events| > 0
  {
    var count := BatchCount(|events|, batchSize);
    if oneToMany then PlacedFirst(f, events, batchSize, count, out)
    else
      |out| == count && forall k :: 0 <= k < count ==> out[k] == f(BatchAt(events, batchSize, k))
  }

  /** The same for the first n batches of a one-to-many transformation. */
  ghost predicate PlacedFirst(f: Service, events: seq<Event>, batchSize: int, n: nat, out: seq<Option<Value>>)
    requires batchSize <= 0 ==> n <= |events|
  {
    && |out| == Before(f, events, batchSize, n)
    && forall k, j :: 0 <= k < n && 0 <= j < |Items(f(BatchAt(events, batchSize, k)))| ==>
      ElementAt(f, events, batchSize, out, k, j)
  }

  ghost predicate ElementAt(f: Service, events: seq<Event>, batchSize: int, out: seq<Option<Value>>, k: nat, j: nat)
    requires (batchSize <= 0 ==> k < |events|) && j < |Items(f(BatchAt(events, batchSize, k)))|
  {
    && Before(f, events, batchSize, k) + j < |out|
    && out[Before(f, events, batchSize, k) + j] == Some(Items(f(BatchAt(events, batchSize, k)))[j])
  }

  lemma PlacedMore(f: Service, events: seq<Event>, batchSize: int, n: nat, out: seq<Option<Value>>)
    requires (batchSize <= 0 ==> n < |events|) && PlacedFirst(f, events, batchSize, n, out)
    requires Answerable(f, true)
    ensures PlacedFirst(f, events, batchSize, n + 1, out + Part(f(BatchAt(events, batchSize, n)), true))
  {
    hide BatchAt;
    var answer := f(BatchAt(events, batchSize, n));
    var more := out + Part(answer, true);
    assert Before(f, events, batchSize, n + 1) == |out| + |Items(answer)|;
    forall k, j | 0 <= k < n + 1 && 0 <= j < |Items(f(BatchAt(events, batchSize, k)))|
      ensures ElementAt(f, events, batchSize, more, k, j)
    {
      if k < n {
        assert ElementAt(f, events, batchSize, out, k, j);
      }
    }
  }

  /** The k-th message holds what starts k steps on. */
  lemma {:induction false} PlanAt(events: seq<Event>, batchSize: int, from: nat, k: nat)
    requires from <= |events| && (batchSize <= 0 ==> from < |events|) && k < |Plan(events, batchSize, from)|
    ensures var start := from + k * Step(batchSize);
      && start <= |events| && (batchSize <= 0 ==> start < |events|)
      && Plan(events, batchSize, from)[k].data == DataOf(events, batchSize, start)
    decreases k
  {
    hide *;
    if k == 0 {
      assert 0 * Step(batchSize) == 0;
      PlanHead(events, batchSize, from);
    } else {
      PlanTail(events, batchSize, from, k);
      PlanAt(events, batchSize, from + Step(batchSize), k - 1);
      OneStepOn(k, Step(batchSize));
    }
  }

  lemma OneStepOn(k: nat, d: nat)
    requires k > 0
    ensures (k - 1) * d + d == k * d
  {
  }

  lemma PlanHead(events: seq<Event>, batchSize: int, from: nat)
    requires from <= |events| && (batchSize <= 0 ==> from < |events|)
    ensures var q, end := Plan(events, batchSize, from), EndOf(|events|, batchSize, from);
      && q != [] && q[0] == Message(end, DataOf(events, batchSize, from))
      && q[1..] == if end == |events| then [] else Plan(events, batchSize, end)
  {
  }

  lemma PlanTail(events: seq<Event>, batchSize: int, from: nat, k: nat)
    requires from <= |events| && (batchSize <= 0 ==> from < |events|) && 0 < k < |Plan(events, batchSize, from)|
    ensures var end := from + Step(batchSize);
      && end < |events| && k <= |Plan(events, batchSize, end)|
      && Plan(events, batchSize, from)[k] == Plan(events, batchSize, end)[k - 1]
  {
    assert EndOf(|events|, batchSize, from) < |events|;
  }

  lemma {:induction false} PlanCount(events: seq<Event>, batchSize: int, from: nat)
    requires from <= |events| && (batchSize <= 0 ==> from < |events|)
    ensures |Plan(events, batchSize, from)| == BatchCount(|events| - from, batchSize)
    decreases |events| - from
  {
    hide DataOf;
    var end := EndOf(|events|, batchSize, from);
    if end < |events| {
      PlanCount(events, batchSize, end);
    }
  }

  /** The k-th answer is the answer to the k-th batch. */
  lemma AnswerAt(f: Service, events: seq<Event>, batchSize: int, k: nat)
    requires (batchSize <= 0 ==> |events| > 0) && k < |Plan(events, batchSize, 0)|
    ensures batchSize <= 0 ==> k < |events|
    ensures Answers(f, Plan(events, batchSize, 0))[k].data == f(BatchAt(events, batchSize, k))
  {
    hide Plan;
    PlanAt(events, batchSize, 0, k);
  }

  lemma {:induction false} FlattenedPlaced(f: Service, events: seq<Event>, batchSize: int, n: nat)
    requires (batchSize <= 0 ==> |events| > 0) && Answerable(f, true) && n <= |Plan(events, batchSize, 0)|
    ensures batchSize <= 0 ==> n <= |events|
    ensures PlacedFirst(f, events, batchSize, n, Flattened(Answers(f, Plan(events, batchSize, 0))[..n], true))
    decreases n
  {
    hide Plan, BatchAt, Flattened, Part;
    var a := Answers(f, Plan(events, batchSize, 0));
    if n == 0 {
      NothingFlattened(true);
      assert a[..0] == [];
    } else {
      AnswerAt(f, events, batchSize, n - 1);
      FlattenedPlaced(f, events, batchSize, n - 1);
      FlattenedSnoc(a[..n - 1], a[n - 1], true);
      PlacedMore(f, events, batchSize, n - 1, Flattened(a[..n - 1], true));
      assert a[..n] == a[..n - 1] + [a[n - 1]];
    }
  }

  lemma NothingFlattened(oneToMany: bool)
    ensures Flattened([], oneToMany) == []
  {
  }

  lemma {:induction false} FlattenedOne(q: seq<Response>)
    ensures |Flattened(q, false)| == |q| && forall k :: 0 <= k < |q| ==> Flattened(q, false)[k] == q[k].data
  {
    if q != [] {
      FlattenedOne(q[1..]);
    }
  }

  /** What Transform returns, element by element. */
  lemma AppliedPlaced(f: Service, events: seq<Event>, batchSize: int, oneToMany: bool)
    requires (batchSize <= 0 ==> |events| > 0) && Answerable(f, oneToMany)
    ensures Placed(f, events, batchSize, oneToMany, Applied(f, events, batchSize, oneToMany))
  {
    hide Plan, BatchAt, Flattened, Applied, Before;
    var a := Answers(f, Plan(events, batchSize, 0));
    PlanApplied(f, events, batchSize, oneToMany, 0);
    PlanCount(events, batchSize, 0);
    assert events[0..] == events && a[..|a|] == a;
    if oneToMany {
      FlattenedPlaced(f, events, batchSize, |a|);
    } else {
      FlattenedOne(a);
      forall k | 0 <= k < |a| ensures a[k].data == f(BatchAt(events, batchSize, k)) {
        AnswerAt(f, events, batchSize, k);
      }
    }
  }

  // ---------- which source every element is said to come from ----------

  ghost function SourceIDs(events: seq<Event>): (ids: seq<string>)
    ensures |ids| == |events| && forall k :: 0 <= k < |ids| ==> ids[k] == events[k].sourceID
  {
    seq(|events|, k requires 0 <= k < |events| => events[k].sourceID)
  }

  /** Whether anything is made of an answer that takes a source id. */
  predicate TakesID(answer: Option<Value>, oneToMany: bool)
    requires oneToMany && answer.Some? ==> answer.value.Array?
  {
    answer.Some? && (oneToMany ==> answer.value.items != [])
  }

  ghost function IDPart(answer: Option<Value>, id: string, oneToMany: bool): seq<string> {
    if oneToMany then seq(|Items(answer)|, _ => id) else [if answer.Some? then id else ""]
  }

  ghost function IDAt(ids: seq<string>, k: nat): string {
    if k < |ids| then ids[k] else ""
  }

  /** The source ids put beside the events made of the first n answers. */
  ghost function IDs(q: seq<Response>, ids: seq<string>, oneToMany: bool, n: nat): seq<string>
    requires n <= |q|
  {
    if n == 0 then []
    else IDs(q, ids, oneToMany, n - 1) + IDPart(q[n - 1].data, IDAt(ids, n - 1), oneToMany)
  }

  /** What the elements answered for the k-th batch are said to come from: the source of the k-th event. */
  ghost predicate Sourced(f: Service, events: seq<Event>, batchSize: int, oneToMany: bool, ids: seq<string>)
    requires batchSize <= 0 ==> |events| > 0
  {
    var count := BatchCount(|events|, batchSize);
    if oneToMany then SourcedFirst(f, events, batchSize, count, ids)
    else
      && |ids| == count
      && forall k :: 0 <= k < count ==>
        ids[k] == if f(BatchAt(events, batchSize, k)).Some? then IDAt(SourceIDs(events), k) else ""
  }

  ghost predicate SourcedFirst(f: Service, events: seq<Event>, batchSize: int, n: nat, ids: seq<string>)
    requires batchSize <= 0 ==> n <= |events|
  {
    && |ids| == Before(f, events, batchSize, n)
    && forall k, j :: 0 <= k < n && 0 <= j < |Items(f(BatchAt(events, batchSize, k)))| ==>
      SourceAt(f, events, batchSize, ids, k, j)
  }

  ghost predicate SourceAt(f: Service, events: seq<Event>, batchSize: int, ids: seq<string>, k: nat, j: nat)
    requires batchSize <= 0 ==> k < |events|
  {
    && Before(f, events, batchSize, k) + j < |ids|
    && ids[Before(f, events, batchSize, k) + j] == IDAt(SourceIDs(events), k)
  }

  lemma SourcedMore(f: Service, events: seq<Event>, batchSize: int, n: nat, ids: seq<string>)
    requires (batchSize <= 0 ==> n < |events|) && SourcedFirst(f, events, batchSize, n, ids)
    ensures SourcedFirst(f, events, batchSize, n + 1,
        ids + IDPart(f(BatchAt(events, batchSize, n)), IDAt(SourceIDs(events), n), true))
  {
    hide BatchAt, IDAt, SourceIDs;
    var answer := f(BatchAt(events, batchSize, n));
    var more := ids + IDPart(answer, IDAt(SourceIDs(events), n), true);
    assert Before(f, events, batchSize, n + 1) == |ids| + |Items(answer)|;
    forall k, j | 0 <= k < n + 1 && 0 <= j < |Items(f(BatchAt(events, batchSize, k)))|
      ensures SourceAt(f, events, batchSize, more, k, j)
    {
      if k < n {
        assert SourceAt(f, events, batchSize, ids, k, j);
      }
    }
  }

  lemma {:induction false} IDsSourced(f: Service, events: seq<Event>, batchSize: int, n: nat)
    requires (batchSize <= 0 ==> |events| > 0) && n <= |Plan(events, batchSize, 0)|
    ensures batchSize <= 0 ==> n <= |events|
    ensures SourcedFirst(f, events, batchSize, n,
        IDs(Answers(f, Plan(events, batchSize, 0)), SourceIDs(events), true, n))
    decreases n
  {
    hide Plan, BatchAt, IDPart, IDAt, SourceIDs;
    if n > 0 {
      AnswerAt(f, events, batchSize, n - 1);
      IDsSourced(f, events, batchSize, n - 1);
      SourcedMore(f, events, batchSize, n - 1,
          IDs(Answers(f, Plan(events, batchSize, 0)), SourceIDs(events), true, n - 1));
    }
  }

  lemma {:induction false} IDsOne(q: seq<Response>, ids: seq<string>, n: nat)
    requires n <= |q|
    ensures |IDs(q, ids, false, n)| == n
    ensures forall k :: 0 <= k < n ==> IDs(q, ids, false, n)[k] == if q[k].data.Some? then IDAt(ids, k) else ""
  {
    if n > 0 {
      IDsOne(q, ids, n - 1);
    }
  }

  lemma AllSourced(f: Service, events: seq<Event>, batchSize: int, oneToMany: bool)
    requires batchSize <= 0 ==> |events| > 0
    ensures var a := Answers(f, Plan(events, batchSize, 0));
      Sourced(f, events, batchSize, oneToMany, IDs(a, SourceIDs(events), oneToMany, |a|))
  {
    hide Plan, BatchAt, IDs, Before, IDAt, SourceIDs;
    var a := Answers(f, Plan(events, batchSize, 0));
    PlanCount(events, batchSize, 0);
    if oneToMany {
      IDsSourced(f, events, batchSize, |a|);
    } else {
      IDsOne(a, SourceIDs(events), |a|);
      forall k | 0 <= k < |a| ensures a[k].data == f(BatchAt(events, batchSize, k)) {
        AnswerAt(f, events, batchSize, k);
      }
    }
  }

  // ---------- when that is right ----------

  ghost predicate HasSource(d: Data, id: string) {
    exists e :: e in EventsOf(d) && e.sourceID == id
  }

  /** Every element is said to come from the source of one of the events it was made of. */
  ghost predicate RightSources(f: Service, events: seq<Event>, batchSize: int, ids: seq<string>)
    requires batchSize <= 0 ==> |events| > 0
  {
    forall k, j :: 0 <= k < BatchCount(|events|, batchSize) && 0 <= j < |Items(f(BatchAt(events, batchSize, k)))| ==>
      RightSource(f, events, batchSize, ids, k, j)
  }

  ghost predicate RightSource(f: Service, events: seq<Event>, batchSize: int, ids: seq<string>, k: nat, j: nat)
    requires batchSize <= 0 ==> k < |events|
  {
    && Before(f, events, batchSize, k) + j < |ids|
    && HasSource(BatchAt(events, batchSize, k), ids[Before(f, events, batchSize, k) + j])
  }

  /** The k-th event's source is also that of an event of the k-th batch. */
  ghost predicate SourceInBatch(events: seq<Event>, batchSize: int, k: nat)
    requires k < |events|
  {
    HasSource(BatchAt(events, batchSize, k), events[k].sourceID)
  }

  lemma {:induction false} NoMoreBatches(n: nat, batchSize: int)
    requires n > 0
    ensures BatchCount(n, batchSize) <= n
  {
    if n > Step(batchSize) {
      NoMoreBatches(n - Step(batchSize), batchSize);
    }
  }

  /** The source ids are right exactly if the source of the k-th event is found in the k-th batch, for every batch that
      is answered with anything. */
  lemma SourcesIff(f: Service, events: seq<Event>, batchSize: int, ids: seq<string>)
    requires |events| > 0 && Sourced(f, events, batchSize, true, ids)
    ensures BatchCount(|events|, batchSize) <= |events|
    ensures RightSources(f, events, batchSize, ids) <==>
      forall k :: 0 <= k < BatchCount(|events|, batchSize) && Items(f(BatchAt(events, batchSize, k))) != [] ==>
        SourceInBatch(events, batchSize, k)
  {
    hide BatchAt, Before, BatchCount, HasSource, EventsOf;
    NoMoreBatches(|events|, batchSize);
    var count := BatchCount(|events|, batchSize);
    forall k, j | 0 <= k < count && 0 <= j < |Items(f(BatchAt(events, batchSize, k)))|
      ensures RightSource(f, events, batchSize, ids, k, j) <==> SourceInBatch(events, batchSize, k)
    {
      assert SourceAt(f, events, batchSize, ids, k, j);
    }
    if RightSources(f, events, batchSize, ids) {
      forall k | 0 <= k < count && Items(f(BatchAt(events, batchSize, k))) != []
        ensures SourceInBatch(events, batchSize, k)
      {
        assert RightSource(f, events, batchSize, ids, k, 0);
      }
    }
  }

  /** A service that answers everything with one element. */
  ghost function Echo(d: Data): Option<Value> {
    Some(Array([Scalar("")]))
  }

  /** Whatever the service answers, the source ids are right: exactly if every batch holds the source of the event that
      has the batch's number. */
  lemma EveryServiceIff(events: seq<Event>, batchSize: int)
    requires |events| > 0
    ensures BatchCount(|events|, batchSize) <= |events|
    ensures (forall f: Service, ids ::
          Answerable(f, true) && Sourced(f, events, batchSize, true, ids) ==> RightSources(f, events, batchSize, ids))
      <==> forall k :: 0 <= k < BatchCount(|events|, batchSize) ==> SourceInBatch(events, batchSize, k)
  {
    hide BatchAt, Before, BatchCount, Sourced, SourceInBatch, RightSources;
    NoMoreBatches(|events|, batchSize);
    forall f: Service, ids | Sourced(f, events, batchSize, true, ids)
      ensures RightSources(f, events, batchSize, ids) <==>
        forall k :: 0 <= k < BatchCount(|events|, batchSize) && Items(f(BatchAt(events, batchSize, k))) != [] ==>
          SourceInBatch(events, batchSize, k)
    {
      SourcesIff(f, events, batchSize, ids);
    }
    var echoed := IDs(Answers(Echo, Plan(events, batchSize, 0)), SourceIDs(events), true,
        |Answers(Echo, Plan(events, batchSize, 0))|);
    AllSourced(Echo, events, batchSize, true);
    assert Sourced(Echo, events, batchSize, true, echoed) && Answerable(Echo, true);
    forall k | 0 <= k < BatchCount(|events|, batchSize) ensures Items(Echo(BatchAt(events, batchSize, k))) != [] {}
  }

  /** Batches of one event, or events of one source, are always right. */
  lemma RightIf(events: seq<Event>, batchSize: int)
    requires batchSize <= 1 || forall i, j :: 0 <= i < j < |events| ==> events[i].sourceID == events[j].sourceID
    ensures forall k :: 0 <= k < |events| && k < BatchCount(|events|, batchSize) ==> SourceInBatch(events, batchSize, k)
  {
    hide BatchCount, BatchAt, HasSource, EventsOf;
    forall k | 0 <= k < |events| && k < BatchCount(|events|, batchSize) ensures SourceInBatch(events, batchSize, k) {
      BatchBegins(|events|, batchSize, k);
      BatchHas(events, batchSize, k);
    }
  }

  lemma {:induction false} BatchBegins(n: nat, batchSize: int, k: nat)
    requires n > 0 && k < BatchCount(n, batchSize)
    ensures k * Step(batchSize) < n
    decreases k
  {
    if k == 0 {
      assert 0 * Step(batchSize) == 0;
    } else {
      BatchBegins(n - Step(batchSize), batchSize, k - 1);
      OneStepOn(k, Step(batchSize));
    }
  }

  lemma BatchHas(events: seq<Event>, batchSize: int, k: nat)
    requires k < |events| && k * Step(batchSize) < |events|
    ensures HasSource(BatchAt(events, batchSize, k), events[k * Step(batchSize)].sourceID)
    ensures batchSize <= 1 ==> k * Step(batchSize) == k
  {
    assert batchSize <= 1 ==> k * 1 == k;
    var start := k * Step(batchSize);
    assert events[start] in EventsOf(BatchAt(events, batchSize, k)) by {
      if batchSize > 0 {
        assert events[start..Least(start + batchSize, |events|)][0] == events[start];
      } else {
        assert start == k;
      }
    }
  }

  /** Three events in batches of two: the third comes back with the source of the second. */
  lemma WrongSource(f: Service, ids: seq<string>)
    requires Answerable(f, true)
    requires var events := [Event("a", "1"), Event("a", "2"), Event("b", "3")];
      && Items(f(Batch([events[2]]))) != [] && Sourced(f, events, 2, true, ids)
    ensures var events := [Event("a", "1"), Event("a", "2"), Event("b", "3")];
      !RightSources(f, events, 2, ids)
  {
    var events := [Event("a", "1"), Event("a", "2"), Event("b", "3")];
    assert BatchAt(events, 2, 1) == Batch([events[2]]);
    assert BatchCount(3, 2) == 2;
    SourcesIff(f, events, 2, ids);
    assert !SourceInBatch(events, 2, 1);
  }

  // ---------- putting the answers in order ----------

  function Insert(q: seq<Response>, x: Response): seq<Response> {
    if q == [] then [x] else if x.index < q[0].index then [x] + q else [q[0]] + Insert(q[1..], x)
  }

  /** sort.Slice by index. */
  function Sort(q: seq<Response>): seq<Response> {
    if q == [] then [] else Insert(Sort(q[1..]), q[0])
  }

  ghost predicate Ordered(q: seq<Response>) {
    forall j, k :: 0 <= j < k < |q| ==> q[j].index <= q[k].index
  }

  ghost predicate StrictlyOrdered(q: seq<Response>) {
    forall j, k :: 0 <= j < k < |q| ==> q[j].index < q[k].index
  }

  lemma {:induction false} InsertHas(q: seq<Response>, x: Response)
    ensures multiset(Insert(q, x)) == multiset(q) + multiset{x}
  {
    if q != [] && x.index >= q[0].index {
      InsertHas(q[1..], x);
      assert q == [q[0]] + q[1..];
    }
  }

  lemma {:induction false} InsertSorts(q: seq<Response>, x: Response)
    requires Ordered(q)
    ensures Ordered(Insert(q, x))
    ensures forall y :: y in Insert(q, x) ==> y == x || y in q
  {
    if q != [] && x.index >= q[0].index {
      var rest := Insert(q[1..], x);
      InsertSorts(q[1..], x);
      forall k | 0 <= k < |rest| ensures q[0].index <= rest[k].index {
        assert rest[k] in rest;
      }
    }
  }

  lemma {:induction false} SortSorts(q: seq<Response>)
    ensures Ordered(Sort(q)) && multiset(Sort(q)) == multiset(q)
  {
    if q != [] {
      SortSorts(q[1..]);
      InsertSorts(Sort(q[1..]), q[0]);
      InsertHas(Sort(q[1..]), q[0]);
      assert q == [q[0]] + q[1..];
    }
  }

  lemma SameFirst(q: seq<Response>, r: seq<Response>)
    requires Ordered(q) && StrictlyOrdered(r) && multiset(q) == multiset(r) && q != [] && r != []
    ensures q[0] == r[0]
  {
    assert q[0] in multiset(r) && r[0] in multiset(q);
    var j :| 0 <= j < |r| && r[j] == q[0];
    var k :| 0 <= k < |q| && q[k] == r[0];
  }

  /** Sorting anything that has the same elements as a strictly ordered sequence gives that sequence. */
  lemma {:induction false} OneOrder(q: seq<Response>, r: seq<Response>)
    requires Ordered(q) && StrictlyOrdered(r) && multiset(q) == multiset(r)
    ensures q == r
    decreases |q|
  {
    assert |multiset(q)| == |q| && |multiset(r)| == |r|;
    if q != [] {
      SameFirst(q, r);
      assert q == [q[0]] + q[1..] && r == [r[0]] + r[1..];
      assert multiset(q[1..]) == multiset(q) - multiset{q[0]};
      assert multiset(r[1..]) == multiset(r) - multiset{r[0]};
      OneOrder(q[1..], r[1..]);
    }
  }

  // ---------- the loop ----------

  /** What is still to be sent. */
  ghost function Unsent(events: seq<Event>, batchSize: int, open: bool, pending: Option<Data>,
          inputIdx: nat): seq<Message>
    requires inputIdx <= |events|
    requires batchSize <= 0 && open && pending == None ==> inputIdx < |events|
  {
    if !open then []
    else if pending == None then Plan(events, batchSize, inputIdx)
    else [Message(inputIdx, pending.value)] + if inputIdx == |events| then [] else Plan(events, batchSize, inputIdx)
  }

  /** One message per event is what a one-to-one transformation counts on. */
  predicate OneEach(events: seq<Event>, batchSize: int) {
    |events| > 0 && (batchSize <= 1 || |events| == 1)
  }

  lemma {:induction false} PlanLength(events: seq<Event>, batchSize: int, from: nat)
    requires from <= |events| && (batchSize <= 0 ==> from < |events|)
    ensures |Plan(events, batchSize, from)| == |events| - from <==>
      from < |events| && (batchSize <= 1 || |events| - from == 1)
    ensures |Plan(events, batchSize, from)| <= if from == |events| then 1 else |events| - from
    decreases |events| - from
  {
    var end := EndOf(|events|, batchSize, from);
    if end < |events| {
      PlanLength(events, batchSize, end);
    }
  }

  /** The last assertion of Transform holds for a one-to-one transformation exactly when every batch has one event. */
  lemma OneToOneIff(f: Service, events: seq<Event>, batchSize: int)
    requires batchSize <= 0 ==> |events| > 0
    ensures |Applied(f, events, batchSize, false)| == |events| <==> OneEach(events, batchSize)
  {
    PlanApplied(f, events, batchSize, false, 0);
    assert events[0..] == events;
    FlattenedOne(Answers(f, Plan(events, batchSize, 0)));
    PlanLength(events, batchSize, 0);
  }

  /** Two events in one batch get one answer, and the assertion fails. */
  lemma TwoInOneBatch(f: Service, a: Event, b: Event)
    ensures !OneEach([a, b], 2) && |Applied(f, [a, b], 2, false)| != |[a, b]|
  {
    OneToOneIff(f, [a, b], 2);
  }

  /** The next batch, event by event. */
  method NextBatch(clientEvents: seq<Event>, batchSize: int, from: nat) returns (toSendData: Data, inputIdx: nat)
    requires from <= |clientEvents| && (batchSize <= 0 ==> from < |clientEvents|)
    ensures inputIdx == EndOf(|clientEvents|, batchSize, from) && toSendData == DataOf(clientEvents, batchSize, from)
  {
    inputIdx := from;
    if batchSize > 0 {
      var clientBatch := [];
      var batchCount := 0;
      while !(batchCount >= batchSize || inputIdx >= |clientEvents|)
        invariant inputIdx == from + batchCount <= |clientEvents| && 0 <= batchCount <= batchSize
        invariant clientBatch == clientEvents[from..inputIdx]
        decreases |clientEvents| - inputIdx
      {
        clientBatch := clientBatch + [clientEvents[inputIdx]];
        batchCount := batchCount + 1;
        inputIdx := inputIdx + 1;
      }
      toSendData := Batch(clientBatch);
    } else {
      toSendData := Single(clientEvents[inputIdx]);
      inputIdx := inputIdx + 1;
    }
  }

  /** How a call ends: with the events and their sources, with an index out of range, or with the last assertion
      failing. */
  datatype Outcome = Returned(events: seq<Option<Value>>, sourceIDs: seq<string>) | OutOfRange | AssertionFailed

  /** There is no event, and that is either taken out of the list or answered with something that needs a source. */
  ghost predicate NoEventTaken(f: Service, events: seq<Event>, batchSize: int, oneToMany: bool)
    requires Answerable(f, oneToMany)
  {
    events == [] && (batchSize <= 0 || TakesID(f(Batch([])), oneToMany))
  }

  /** Transform. `inFlight` are the messages in the request queue, at a worker or, answered, in the response queue;
      whenever both a send and a receive are possible either may happen, and any message may be answered next. */
  method Transform(f: Service, clientEvents: seq<Event>, batchSize: int, oneToMany: bool) returns (outcome: Outcome)
    requires Answerable(f, oneToMany)
    ensures outcome.OutOfRange? <==> NoEventTaken(f, clientEvents, batchSize, oneToMany)
    ensures outcome.AssertionFailed? <==>
      !NoEventTaken(f, clientEvents, batchSize, oneToMany) && !oneToMany && !OneEach(clientEvents, batchSize)
    ensures outcome.Returned? ==> outcome.events == Applied(f, clientEvents, batchSize, oneToMany)
    ensures outcome.Returned? ==> Placed(f, clientEvents, batchSize, oneToMany, outcome.events)
    ensures outcome.Returned? ==> Sourced(f, clientEvents, batchSize, oneToMany, outcome.sourceIDs)
  {
    var sourceIDList := [];
    for i := 0 to |clientEvents|
      invariant |sourceIDList| == i && forall k :: 0 <= k < i ==> sourceIDList[k] == clientEvents[k].sourceID
    {
      sourceIDList := sourceIDList + [clientEvents[i].sourceID];
    }
    assert sourceIDList == SourceIDs(clientEvents);
    NobodyTaken(f, clientEvents, batchSize, oneToMany);
    hide *;
    // Without batches the first turn of the loop takes clientEvents[0].
    if batchSize <= 0 && |clientEvents| == 0 {
      return OutOfRange;
    }
    var transformResponse := Collect(f, clientEvents, batchSize);
    InOrderAgain(f, clientEvents, batchSize, oneToMany, transformResponse);
    transformResponse := Sort(transformResponse);
    assert batchSize > 0 || transformResponse[0].index == 1;
    assert transformResponse[|transformResponse| - 1].index == |clientEvents|;
    var out, ids, ok := Assemble(transformResponse, sourceIDList, oneToMany);
    if !ok {
      return OutOfRange;
    }
    AppliedPlaced(f, clientEvents, batchSize, oneToMany);
    AllSourced(f, clientEvents, batchSize, oneToMany);
    if !oneToMany {
      OneToOneIff(f, clientEvents, batchSize);
    }
    return if oneToMany || |out| == |clientEvents| then Returned(out, ids) else AssertionFailed;
  }

  /** An answer needs a source where there is none only if there is no event. */
  lemma NobodyTaken(f: Service, events: seq<Event>, batchSize: int, oneToMany: bool)
    requires Answerable(f, oneToMany)
    ensures events == [] && batchSize <= 0 ==> NoEventTaken(f, events, batchSize, oneToMany)
    ensures !(events == [] && batchSize <= 0) ==>
      (NoEventTaken(f, events, batchSize, oneToMany) <==>
       !EnoughIDs(Answers(f, Plan(events, batchSize, 0)), |events|, oneToMany))
  {
    if events == [] && batchSize > 0 {
      var a := Answers(f, Plan(events, batchSize, 0));
      assert |a| == 1 && a[0].data == f(Batch([]));
    } else if events != [] {
      hide Plan;
      PlanLength(events, batchSize, 0);
    }
  }

  /** Every answer that needs a source id finds one at its own position. */
  ghost predicate EnoughIDs(q: seq<Response>, n: nat, oneToMany: bool)
    requires forall k :: 0 <= k < |q| ==> oneToMany && q[k].data.Some? ==> q[k].data.value.Array?
  {
    forall k :: n <= k < |q| ==> !TakesID(q[k].data, oneToMany)
  }

  lemma AnswersShape(f: Service, events: seq<Event>, batchSize: int, oneToMany: bool)
    requires (batchSize <= 0 ==> |events| > 0) && Answerable(f, oneToMany)
    ensures var a := Answers(f, Plan(events, batchSize, 0));
      && StrictlyOrdered(a) && a != [] && a[|a| - 1].index == |events| && (batchSize > 0 || a[0].index == 1)
      && (forall k :: 0 <= k < |a| ==> oneToMany && a[k].data.Some? ==> a[k].data.value.Array?)
  {
    hide Plan, AllEvents, EventsOf;
    PlanPartitions(events, batchSize);
    FirstIndex(events, batchSize);
  }

  lemma FirstIndex(events: seq<Event>, batchSize: int)
    requires batchSize <= 0 ==> |events| > 0
    ensures Plan(events, batchSize, 0) != [] && (batchSize <= 0 ==> Plan(events, batchSize, 0)[0].index == 1)
  {
  }

  lemma InOrderAgain(f: Service, events: seq<Event>, batchSize: int, oneToMany: bool, responses: seq<Response>)
    requires (batchSize <= 0 ==> |events| > 0) && Answerable(f, oneToMany)
    requires multiset(responses) == multiset(Answers(f, Plan(events, batchSize, 0)))
    ensures var q := Sort(responses);
      && q != [] && q[|q| - 1].index == |events| && (batchSize > 0 || q[0].index == 1)
      && (forall k :: 0 <= k < |q| ==> oneToMany && q[k].data.Some? ==> q[k].data.value.Array?)
      && Flattened(q, oneToMany) == Applied(f, events, batchSize, oneToMany)
      && q == Answers(f, Plan(events, batchSize, 0))
  {
    hide *;
    SortSorts(responses);
    AnswersShape(f, events, batchSize, oneToMany);
    OneOrder(Sort(responses), Answers(f, Plan(events, batchSize, 0)));
    PlanApplied(f, events, batchSize, oneToMany, 0);
    assert events[0..] == events;
  }

  /** The elements of one array, each with the same source. */
  method AppendArray(before: seq<Option<Value>>, idsBefore: seq<string>, items: seq<Value>, sourceID: string)
    returns (out: seq<Option<Value>>, ids: seq<string>)
    ensures out == before + Part(Some(Array(items)), true)
    ensures ids == idsBefore + IDPart(Some(Array(items)), sourceID, true)
  {
    out, ids := before, idsBefore;
    ghost var part, idPart := Part(Some(Array(items)), true), IDPart(Some(Array(items)), sourceID, true);
    for j := 0 to |items|
      invariant out == before + part[..j] && ids == idsBefore + idPart[..j]
    {
      out := out + [Some(items[j])];
      ids := ids + [sourceID];
      assert part[..j + 1] == part[..j] + [part[j]] && idPart[..j + 1] == idPart[..j] + [idPart[j]];
    }
    assert part[..|items|] == part && idPart[..|items|] == idPart;
  }

  lemma {:induction false} FlattenedSnoc(q: seq<Response>, x: Response, oneToMany: bool)
    requires forall k :: 0 <= k < |q| ==> oneToMany && q[k].data.Some? ==> q[k].data.value.Array?
    requires oneToMany && x.data.Some? ==> x.data.value.Array?
    ensures Flattened(q + [x], oneToMany) == Flattened(q, oneToMany) + Part(x.data, oneToMany)
  {
    hide Part;
    if q == [] {
      assert Flattened([x][1..], oneToMany) == [];
      assert Part(x.data, oneToMany) + [] == Part(x.data, oneToMany);
    } else {
      FlattenedSnoc(q[1..], x, oneToMany);
      assert (q + [x])[1..] == q[1..] + [x];
    }
  }

  /** The loop over the sorted answers; not `ok` is an index out of range. */
  method Assemble(transformResponse: seq<Response>, sourceIDList: seq<string>, oneToMany: bool)
    returns (out: seq<Option<Value>>, ids: seq<string>, ok: bool)
    requires forall k :: 0 <= k < |transformResponse| ==> oneToMany && transformResponse[k].data.Some? ==>
      transformResponse[k].data.value.Array?
    ensures ok <==> EnoughIDs(transformResponse, |sourceIDList|, oneToMany)
    ensures ok ==> out == Flattened(transformResponse, oneToMany)
    ensures ok ==> ids == IDs(transformResponse, sourceIDList, oneToMany, |transformResponse|)
  {
    hide Flattened, Part, IDPart;
    out, ids, ok := [], [], true;
    NothingFlattened(oneToMany);
    for idx := 0 to |transformResponse|
      invariant ok && forall k :: |sourceIDList| <= k < idx ==> !TakesID(transformResponse[k].data, oneToMany)
      invariant out == Flattened(transformResponse[..idx], oneToMany)
      invariant ids == IDs(transformResponse, sourceIDList, oneToMany, idx)
    {
      var resp := transformResponse[idx];
      FlattenedSnoc(transformResponse[..idx], resp, oneToMany);
      assert transformResponse[..idx + 1] == transformResponse[..idx] + [resp];
      OnePart(resp.data, IDAt(sourceIDList, idx), oneToMany);
      if resp.data == None {
        if !oneToMany {
          out, ids := out + [None], ids + [""];
        } else {
          assert out + [] == out && ids + [] == ids;
        }
        continue;
      }
      // The id at idx is asked for once for every element.
      if TakesID(resp.data, oneToMany) && idx >= |sourceIDList| {
        return [], [], false;
      }
      if oneToMany {
        out, ids := AppendArray(out, ids, resp.data.value.items,
            if idx < |sourceIDList| then sourceIDList[idx] else "");
      } else {
        out, ids := out + [resp.data], ids + [sourceIDList[idx]];
      }
    }
    assert transformResponse[..|transformResponse|] == transformResponse;
  }

  lemma OnePart(answer: Option<Value>, id: string, oneToMany: bool)
    ensures answer == None ==>
      Part(answer, oneToMany) == (if oneToMany then [] else [None])
      && IDPart(answer, id, oneToMany) == if oneToMany then [] else [""]
    ensures answer.Some? && !oneToMany ==> Part(answer, false) == [answer] && IDPart(answer, id, false) == [id]
  {
  }

  /** Every message sent has been answered or is in flight. */
  ghost predicate Balanced(f: Service, transformResponse: seq<Response>, inFlight: seq<Message>, sent: seq<Message>) {
    && multiset(transformResponse) + multiset(Answers(f, inFlight)) == multiset(Answers(f, sent))
    && |transformResponse| + |inFlight| == |sent|
  }

  lemma SendBalanced(f: Service, transformResponse: seq<Response>, inFlight: seq<Message>, sent: seq<Message>,
          m: Message)
    requires Balanced(f, transformResponse, inFlight, sent)
    ensures Balanced(f, transformResponse, inFlight + [m], sent + [m])
  {
    assert Answers(f, inFlight + [m]) == Answers(f, inFlight) + [Answer(f, m)];
    assert Answers(f, sent + [m]) == Answers(f, sent) + [Answer(f, m)];
  }

  /** The messages under way without the k-th. */
  function Without(q: seq<Message>, k: nat): (r: seq<Message>)
    requires k < |q|
    ensures |r| == |q| - 1
  {
    q[..k] + q[k + 1..]
  }

  lemma ReceiveBalanced(f: Service, transformResponse: seq<Response>, inFlight: seq<Message>, sent: seq<Message>,
          k: nat)
    requires Balanced(f, transformResponse, inFlight, sent) && k < |inFlight|
    ensures Balanced(f, transformResponse + [Answer(f, inFlight[k])], Without(inFlight, k), sent)
    ensures Answer(f, inFlight[k]) == Response(inFlight[k].index, f(inFlight[k].data))
  {
    var a := Answers(f, inFlight);
    assert a == a[..k] + [a[k]] + a[k + 1..];
    assert Answers(f, inFlight[..k] + inFlight[k + 1..]) == a[..k] + a[k + 1..];
  }

  /** What is sent and what is still to be sent is the plan. */
  ghost predicate OnPlan(events: seq<Event>, batchSize: int, reqOpen: bool, toSendData: Option<Data>, inputIdx: nat,
                         sent: seq<Message>, plan: seq<Message>)
    requires inputIdx <= |events| && (batchSize <= 0 && reqOpen && toSendData == None ==> inputIdx < |events|)
  {
    sent + Unsent(events, batchSize, reqOpen, toSendData, inputIdx) == plan
  }

  lemma SentOn(events: seq<Event>, batchSize: int, from: nat, sent: seq<Message>, plan: seq<Message>)
    requires from <= |events| && (batchSize <= 0 ==> from < |events|)
    requires OnPlan(events, batchSize, true, None, from, sent, plan)
    ensures OnPlan(events, batchSize, true, Some(DataOf(events, batchSize, from)), EndOf(|events|, batchSize, from),
        sent, plan)
  {
  }

  lemma SentOne(events: seq<Event>, batchSize: int, data: Data, inputIdx: nat, sent: seq<Message>, plan: seq<Message>)
    requires inputIdx <= |events| && OnPlan(events, batchSize, true, Some(data), inputIdx, sent, plan)
    ensures OnPlan(events, batchSize, inputIdx < |events|, None, inputIdx, sent + [Message(inputIdx, data)], plan)
  {
  }

  lemma NothingSent(f: Service, events: seq<Event>, batchSize: int)
    requires batchSize <= 0 ==> |events| > 0
    ensures Balanced(f, [], [], []) && OnPlan(events, batchSize, true, None, 0, [], Plan(events, batchSize, 0))
  {
  }

  lemma AllSent(events: seq<Event>, batchSize: int, sent: seq<Message>, plan: seq<Message>)
    requires OnPlan(events, batchSize, false, None, |events|, sent, plan)
    ensures sent == plan
  {
    assert Unsent(events, batchSize, false, None, |events|) == [];
    assert sent + [] == sent;
  }

  /** The loop around select. */
  method Collect(f: Service, clientEvents: seq<Event>, batchSize: int) returns (transformResponse: seq<Response>)
    requires batchSize <= 0 ==> |clientEvents| > 0
    ensures multiset(transformResponse) == multiset(Answers(f, Plan(clientEvents, batchSize, 0)))
  {
    transformResponse := [];
    var inputIdx, outputIdx, totalSent := 0, 0, 0;
    var reqOpen, resOpen := true, true;
    var toSendData: Option<Data> := None;
    var inFlight: seq<Message> := [];
    ghost var sent: seq<Message> := [];
    ghost var plan := Plan(clientEvents, batchSize, 0);
    hide *;
    NothingSent(f, clientEvents, batchSize);

    while true
      invariant 0 <= inputIdx <= |clientEvents| && (reqOpen || resOpen)
      invariant batchSize <= 0 && reqOpen && toSendData == None ==> inputIdx < |clientEvents|
      invariant !reqOpen ==> toSendData == None && inputIdx == |clientEvents|
      invariant reqOpen && toSendData == None && |clientEvents| > 0 ==> inputIdx < |clientEvents|
      invariant resOpen && (!reqOpen ==> inFlight != [])
      invariant OnPlan(clientEvents, batchSize, reqOpen, toSendData, inputIdx, sent, plan)
      invariant totalSent == |sent| && outputIdx == |transformResponse|
      invariant Balanced(f, transformResponse, inFlight, sent)
      decreases
        2 * (|clientEvents| - inputIdx) + (if toSendData.Some? then 2 else 0) + |inFlight| + if reqOpen then 2 else 0
    {
      if reqOpen && toSendData == None {
        SentOn(clientEvents, batchSize, inputIdx, sent, plan);
        var data, next := NextBatch(clientEvents, batchSize, inputIdx);
        toSendData, inputIdx := Some(data), next;
      }
      var send: bool := *;
      if reqOpen && (send || inFlight == []) {
        var m := Message(inputIdx, toSendData.value);
        SentOne(clientEvents, batchSize, toSendData.value, inputIdx, sent, plan);
        SendBalanced(f, transformResponse, inFlight, sent, m);
        inFlight, sent := inFlight + [m], sent + [m];
        totalSent := totalSent + 1;
        toSendData := None;
        if inputIdx == |clientEvents| {
          reqOpen := false;
        }
      } else {
        var k :| 0 <= k < |inFlight|;
        var data := inFlight[k];
        ReceiveBalanced(f, transformResponse, inFlight, sent, k);
        inFlight := Without(inFlight, k);
        transformResponse := transformResponse + [Response(data.index, f(data.data))];
        outputIdx := outputIdx + 1;
        if !reqOpen && outputIdx == totalSent {
          resOpen := false;
        }
      }
      if !reqOpen && !resOpen {
        break;
      }
    }
    assert inputIdx == |clientEvents| && outputIdx == totalSent;
    AllReceived(f, transformResponse, sent);
    AllSent(clientEvents, batchSize, sent, plan);
  }

  lemma AllReceived(f: Service, transformResponse: seq<Response>, sent: seq<Message>)
    requires Balanced(f, transformResponse, [], sent)
    ensures multiset(transformResponse) == multiset(Answers(f, sent))
  {
  }
}
