/** A strict client of the event stream: the grammar the events have to follow,
    written down without looking at how they are produced. */
module StreamClient {
  import opened Prelude
  import opened ChatWire
  import opened StreamSpec

  datatype Phase = Begin | Announced | Live | Ended

  datatype Stage = Added | PartOpen | TextFinal | PartFinal | ArgumentsFinal | Closed

  /** An output item as rebuilt from the events that named it. */
  datatype Seen = Seen(item: Item, stage: Stage)

  /** `items` is indexed by `output_index`; `order` lists the indexes in the
      order their items were closed. */
  datatype Client = Client(expected: nat, phase: Phase, items: seq<Seen>,
                           order: seq<nat>, result: Option<Response>)

  const NEWCOMER := Client(0, Begin, [], [], None)

  predicate Blank(item: Item) {
    item.status == InProgress && item.Body() == ""
  }

  /** Item `i` is known under `id`, is at `stage` and is (or is not) a message. */
  predicate At(c: Client, i: nat, id: nat, stage: Stage, message: bool) {
    && c.phase == Live && i < |c.items|
    && c.items[i].item.id == id && c.items[i].stage == stage && c.items[i].item.Message? == message
  }

  function Advance(c: Client, i: nat, stage: Stage): Client
    requires i < |c.items|
  {
    c.(items := c.items[i := c.items[i].(stage := stage)])
  }

  function Grow(c: Client, i: nat, delta: string): Client
    requires i < |c.items|
  {
    var item := c.items[i].item;
    c.(items := c.items[i := c.items[i].(item := item.WithBody(item.Body() + delta))])
  }

  /** The closed items, in the order they were closed. */
  function Output(c: Client): seq<Item>
    requires forall j :: 0 <= j < |c.order| ==> c.order[j] < |c.items|
  {
    seq(|c.order|, j requires 0 <= j < |c.order| => c.items[c.order[j]].item.(status := Completed))
  }

  predicate MayEnd(c: Client, r: Response, status: Status) {
    && c.phase == Live && r.status == status
    && (forall i :: 0 <= i < |c.items| ==> c.items[i].stage == Closed)
    && (forall j :: 0 <= j < |c.order| ==> c.order[j] < |c.items|)
    && r.output == Output(c)
  }

  /** What the client makes of one event; `None` when the event is illegal. */
  function React(c: Client, e: Event): Option<Client> {
    match e
    case Created(r) =>
      if c.phase == Begin && r.status == StatusInProgress && r.output == []
      then Some(c.(phase := Announced)) else None
    case InProgressEvent(r) =>
      if c.phase == Announced && r.status == StatusInProgress && r.output == []
      then Some(c.(phase := Live)) else None
    case ItemAdded(i, item) =>
      if c.phase == Live && i == |c.items| && Blank(item)
         && (forall k :: 0 <= k < |c.items| ==> c.items[k].item.id != item.id)
      then Some(c.(items := c.items + [Seen(item, Added)])) else None
    case PartAdded(id, i) =>
      if At(c, i, id, Added, true) then Some(Advance(c, i, PartOpen)) else None
    case TextDelta(id, i, d) =>
      if At(c, i, id, PartOpen, true) && d != "" then Some(Grow(c, i, d)) else None
    case TextDone(id, i, t) =>
      if At(c, i, id, PartOpen, true) && t == c.items[i].item.Body() then Some(Advance(c, i, TextFinal)) else None
    case PartDone(id, i, t) =>
      if At(c, i, id, TextFinal, true) && t == c.items[i].item.Body() then Some(Advance(c, i, PartFinal)) else None
    case ArgumentsDelta(id, i, d) =>
      if At(c, i, id, Added, false) && d != "" then Some(Grow(c, i, d)) else None
    case ArgumentsDone(id, i, a) =>
      if At(c, i, id, Added, false) && a == c.items[i].item.Body() then Some(Advance(c, i, ArgumentsFinal)) else None
    case ItemDone(i, item) =>
      if && (At(c, i, item.id, PartFinal, true) || At(c, i, item.id, ArgumentsFinal, false))
         && item == c.items[i].item.(status := Completed)
      then Some(Advance(c, i, Closed).(order := c.order + [i])) else None
    case CompletedEvent(r) =>
      if MayEnd(c, r, StatusCompleted) then Some(c.(phase := Ended, result := Some(r))) else None
    case IncompleteEvent(r) =>
      if MayEnd(c, r, StatusIncomplete) then Some(c.(phase := Ended, result := Some(r))) else None
  }

  function Step(c: Client, e: Numbered): Option<Client> {
    if e.number == c.expected then React(c.(expected := c.expected + 1), e.event) else None
  }

  function Observe(events: seq<Numbered>): Option<Client> {
    if events == [] then Some(NEWCOMER)
    else
      match Observe(events[..|events| - 1])
      case None => None
      case Some(c) => Step(c, events[|events| - 1])
  }

  // ---- what acceptance means, in terms of the events alone

  predicate Terminal(e: Event) { e.CompletedEvent? || e.IncompleteEvent? }

  /** All deltas that name output item `i`, joined. */
  function Deltas(events: seq<Numbered>, i: nat): string {
    if events == [] then ""
    else
      var before := Deltas(events[..|events| - 1], i);
      match events[|events| - 1].event
      case TextDelta(_, k, d) => if k == i then before + d else before
      case ArgumentsDelta(_, k, d) => if k == i then before + d else before
      case _ => before
  }

  /** How often output item `i` was reported done. */
  function DoneCount(events: seq<Numbered>, i: nat): nat {
    if events == [] then 0
    else
      var last := events[|events| - 1].event;
      DoneCount(events[..|events| - 1], i) + if last.ItemDone? && last.outputIndex == i then 1 else 0
  }

  /** How many output items were added. */
  function AddedCount(events: seq<Numbered>): nat {
    if events == [] then 0
    else AddedCount(events[..|events| - 1]) + if events[|events| - 1].event.ItemAdded? then 1 else 0
  }

  /** Sequence numbers count up from 0, and a terminal event only ever comes last. */
  ghost predicate NumberedToTheEnd(events: seq<Numbered>, c: Client) {
    && c.expected == |events|
    && (forall k :: 0 <= k < |events| ==> events[k].number == k)
    && (forall k :: 0 <= k < |events| && Terminal(events[k].event) ==> k == |events| - 1 && c.phase == Ended)
    && (c.phase == Ended <==> c.result.Some?)
    && (c.phase == Ended ==> |events| > 0 && EndsWith(events[|events| - 1].event, c.result.value))
  }

  predicate EndsWith(e: Event, r: Response) {
    e == CompletedEvent(r) || e == IncompleteEvent(r)
  }

  /** The client's `i`-th item holds exactly the deltas that named `i`, and was
      reported done once if it is closed and never otherwise. */
  ghost predicate ItemFaithful(events: seq<Numbered>, c: Client, i: nat) {
    if i < |c.items| then
      && c.items[i].item.status == InProgress
      && c.items[i].item.Body() == Deltas(events, i)
      && DoneCount(events, i) == (if c.items[i].stage == Closed then 1 else 0)
    else
      Deltas(events, i) == "" && DoneCount(events, i) == 0
  }

  lemma StepKeepsItems(before: seq<Numbered>, c: Client, e: Numbered, d: Client, i: nat)
    requires Step(c, e) == Some(d)
    requires ItemFaithful(before, c, i)
    ensures ItemFaithful(before + [e], d, i)
  {
    assert (before + [e])[..|before|] == before;
  }

  lemma StepKeepsNumbers(before: seq<Numbered>, c: Client, e: Numbered, d: Client)
    requires Step(c, e) == Some(d)
    requires NumberedToTheEnd(before, c) && |c.items| == AddedCount(before)
    ensures NumberedToTheEnd(before + [e], d) && |d.items| == AddedCount(before + [e])
  {
    assert (before + [e])[..|before|] == before;
    assert c.phase != Ended;
  }

  /** `order` lists every closed item once, and nothing else. */
  ghost predicate OrderExact(c: Client) {
    && (forall j :: 0 <= j < |c.order| ==> c.order[j] < |c.items| && c.items[c.order[j]].stage == Closed)
    && (forall j, k :: 0 <= j < k < |c.order| ==> c.order[j] != c.order[k])
    && (forall i :: 0 <= i < |c.items| && c.items[i].stage == Closed ==> i in c.order)
  }

  lemma StepKeepsOrder(c: Client, e: Numbered, d: Client)
    requires Step(c, e) == Some(d) && OrderExact(c)
    ensures OrderExact(d)
  {
    if e.event.ItemDone? {
      assert d.order == c.order + [e.event.outputIndex];
      OneMoreClosed(c, e.event.outputIndex, d);
    } else {
      SameClosed(c, e, d);
    }
  }

  lemma OneMoreClosed(c: Client, i: nat, d: Client)
    requires OrderExact(c) && i < |c.items| == |d.items| && c.items[i].stage != Closed && d.items[i].stage == Closed
    requires forall k :: 0 <= k < |c.items| && k != i ==> d.items[k] == c.items[k]
    requires d.order == c.order + [i]
    ensures OrderExact(d)
  {
    assert i !in c.order;
    assert d.order[|c.order|] == i;
    forall k | 0 <= k < |d.items| && d.items[k].stage == Closed ensures k in d.order {
      if k != i { assert k in c.order; }
    }
  }

  lemma SameClosed(c: Client, e: Numbered, d: Client)
    requires Step(c, e) == Some(d) && !e.event.ItemDone?
    ensures d.order == c.order && |c.items| <= |d.items|
    ensures forall k :: 0 <= k < |d.items| ==>
      (d.items[k].stage == Closed <==> k < |c.items| && c.items[k].stage == Closed)
  {
  }

  /** What acceptance says about the events themselves. */
  lemma {:induction false} AcceptedIsFaithful(events: seq<Numbered>)
    requires Observe(events).Some?
    ensures NumberedToTheEnd(events, Observe(events).value)
    ensures |Observe(events).value.items| == AddedCount(events)
    ensures forall i: nat :: ItemFaithful(events, Observe(events).value, i)
    ensures OrderExact(Observe(events).value)
  {
    if events != [] {
      var before, e := events[..|events| - 1], events[|events| - 1];
      assert Observe(before).Some?;
      var c, d := Observe(before).value, Observe(events).value;
      AcceptedIsFaithful(before);
      assert before + [e] == events;
      assert Step(c, e) == Some(d);
      StepKeepsNumbers(before, c, e, d);
      StepKeepsOrder(c, e, d);
      forall i: nat ensures ItemFaithful(events, d, i) {
        StepKeepsItems(before, c, e, d, i);
      }
    }
  }
}
