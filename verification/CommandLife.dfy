/** What may happen to one command, and in which order. */
module CommandLife {
  import opened CommandTypes

  /** One observable happening: an event handed to the event handler, or a
      handler of the command being entered with the given running property. */
  datatype Act = Fired(event: Event) | Called(handler: Handler, rp: RunningProperty)

  datatype Occurrence = Occurrence(id: nat, act: Act)

  /** Stages of a command; `Broken` is the trap for any illegal happening. */
  datatype Life = Unborn | Queueing | Tried | Active | Suspended | Finished | Broken

  function Advance(l: Life, act: Act): Life
  {
    match (l, act)
    case (Unborn, Fired(Queued)) => Queueing
    case (Queueing, Called(SetHandler, _)) => Tried
    case (Queueing, Fired(e)) => Leave(e)
    case (Tried, Fired(e)) => Leave(e)
    case (Active, Fired(Running)) => Active
    case (Active, Fired(Paused)) => Suspended
    case (Active, Fired(e)) => if Terminal(e) then Finished else Broken
    case (Active, Called(h, rp)) => if h != SetHandler && Alive(rp) then Active else Broken
    case (Suspended, Fired(Running)) => Active
    case (Suspended, Called(h, rp)) => if h != SetHandler && Alive(rp) then Suspended else Broken
    case _ => Broken
  }

  /** A submitted command starts running, or is over at once (it is never killed while queued). */
  function Leave(e: Event): Life
  {
    match e
    case Running => Active
    case Completed => Finished
    case Fault => Finished
    case _ => Broken
  }

  function LifeOf(log: seq<Occurrence>, id: nat): Life
  {
    if log == [] then Unborn
    else
      var before := LifeOf(log[..|log| - 1], id);
      var last := log[|log| - 1];
      if last.id == id then Advance(before, last.act) else before
  }

  /** Everything that happened to one command. */
  function Word(log: seq<Occurrence>, id: nat): seq<Act>
  {
    if log == [] then []
    else
      var before := Word(log[..|log| - 1], id);
      var last := log[|log| - 1];
      if last.id == id then before + [last.act] else before
  }

  function Fold(w: seq<Act>): Life
  {
    if w == [] then Unborn else Advance(Fold(w[..|w| - 1]), w[|w| - 1])
  }

  lemma {:induction false} LifeIsFold(log: seq<Occurrence>, id: nat)
    ensures LifeOf(log, id) == Fold(Word(log, id))
  {
    if log != [] {
      LifeIsFold(log[..|log| - 1], id);
      var before := Word(log[..|log| - 1], id);
      var last := log[|log| - 1];
      if last.id == id {
        assert (before + [last.act])[..|before|] == before;
      }
    }
  }

  /** Events of a word, handler calls left out. */
  function Events(w: seq<Act>): seq<Event>
  {
    if w == [] then []
    else
      var before := Events(w[..|w| - 1]);
      if w[|w| - 1].Fired? then before + [w[|w| - 1].event] else before
  }

  /** Which event may directly follow which. */
  predicate Follows(a: Event, b: Event)
  {
    match a
    case Queued => b == Running || b == Completed || b == Fault
    case Running => b == Running || b == Paused || Terminal(b)
    case Paused => b == Running
    case _ => false
  }

  /** Starts with QUEUED, then only legal neighbours: RUNNING+ (PAUSED RUNNING+)*,
      at most one terminal event, never right after PAUSED, and nothing after it. */
  predicate LegalEvents(es: seq<Event>)
  {
    (es != [] ==> es[0] == Queued) &&
    forall i :: 0 <= i < |es| - 1 ==> Follows(es[i], es[i + 1])
  }

  /** Handler calls: the set handler once, directly after QUEUED and before any other
      event; the others only between RUNNING and the terminal event, on a command that
      has neither ended nor faulted. */
  predicate LegalCall(before: seq<Act>, call: Act)
    requires call.Called?
  {
    if call.handler == SetHandler then before == [Fired(Queued)]
    else Alive(call.rp) && LastEventIn(before, {Running, Paused})
  }

  predicate LastEventIn(before: seq<Act>, allowed: set<Event>)
  {
    var es := Events(before);
    es != [] && es[|es| - 1] in allowed
  }

  predicate LegalCalls(w: seq<Act>)
  {
    forall i :: 0 <= i < |w| && w[i].Called? ==> LegalCall(w[..i], w[i])
  }

  /** The stage the last event and the calls since then put a command in. */
  predicate StageMatches(l: Life, es: seq<Event>)
  {
    match l
    case Unborn => es == []
    case Queueing => es == [Queued]
    case Tried => es == [Queued]
    case Active => es != [] && es[|es| - 1] == Running
    case Suspended => es != [] && es[|es| - 1] == Paused
    case Finished => es != [] && Terminal(es[|es| - 1])
    case Broken => true
  }

  lemma {:induction false} FoldKeepsOrder(w: seq<Act>)
    requires Fold(w) != Broken
    ensures LegalEvents(Events(w)) && LegalCalls(w)
    ensures StageMatches(Fold(w), Events(w))
    ensures Fold(w) == Unborn ==> w == []
    ensures Fold(w) == Queueing ==> w == [Fired(Queued)]
  {
    if w != [] {
      var u, act := w[..|w| - 1], w[|w| - 1];
      FoldKeepsOrder(u);
      assert w == u + [act];
      LegalEventsGrow(u, act);
      LegalCallsGrow(u, act);
    }
  }

  lemma LegalEventsGrow(u: seq<Act>, act: Act)
    requires Fold(u) != Broken && Advance(Fold(u), act) != Broken
    requires LegalEvents(Events(u)) && StageMatches(Fold(u), Events(u))
    ensures LegalEvents(Events(u + [act])) && StageMatches(Advance(Fold(u), act), Events(u + [act]))
  {
    assert (u + [act])[..|u|] == u;
    var es := Events(u);
    if act.Fired? {
      assert Events(u + [act]) == es + [act.event];
      assert es != [] ==> Follows(es[|es| - 1], act.event);
    }
  }

  lemma LegalCallsGrow(u: seq<Act>, act: Act)
    requires Fold(u) != Broken && Advance(Fold(u), act) != Broken
    requires LegalCalls(u) && StageMatches(Fold(u), Events(u))
    requires Fold(u) == Queueing ==> u == [Fired(Queued)]
    ensures LegalCalls(u + [act])
  {
    var w := u + [act];
    if act.Called? {
      assert LegalCall(u, act);
    }
    forall i | 0 <= i < |w| && w[i].Called?
      ensures LegalCall(w[..i], w[i])
    {
      assert w[..i] == u[..i];
      assert i == |u| ==> u[..i] == u;
    }
  }

  /** Main result about words: a life that never broke is a legal story. */
  lemma WordIsLegal(log: seq<Occurrence>, id: nat)
    requires LifeOf(log, id) != Broken
    ensures LegalEvents(Events(Word(log, id))) && LegalCalls(Word(log, id))
    ensures StageMatches(LifeOf(log, id), Events(Word(log, id)))
  {
    LifeIsFold(log, id);
    FoldKeepsOrder(Word(log, id));
  }

  /** In a legal story the terminal event is the last one and there is at most one. */
  lemma TerminalIsLast(es: seq<Event>, i: nat)
    requires LegalEvents(es) && i < |es| && Terminal(es[i])
    ensures i == |es| - 1
    ensures i > 0 && es[i - 1] != Paused
  {
    assert i < |es| - 1 ==> Follows(es[i], es[i + 1]);
    assert Follows(es[i - 1], es[i]);
  }

  /** The set handler is entered at most once. */
  lemma SetHandlerAtMostOnce(w: seq<Act>, i: nat, j: nat)
    requires LegalCalls(w) && i < |w| && j < |w|
    requires w[i].Called? && w[i].handler == SetHandler
    requires w[j].Called? && w[j].handler == SetHandler
    ensures i == j
  {
    assert |w[..i]| == 1 && |w[..j]| == 1;
  }
}
