/**
 * ResponderChainDemoView: three buttons whose handlers log two lines at once
 * and schedule more with `asyncAfter`, and the walk up the `next` chain of
 * responders. The responders are nodes of a `Graph` whose links are `next`;
 * the view itself is the node `id`. A scheduled closure is an `Action`, and
 * what a batch of closures logs, once the main queue has run them, is
 * `Narration`.
 */
module ResponderChain {
  import opened Wrappers
  import opened EventLog
  import opened Graphs
  import opened ChainWalk
  import opened MainQueue

  const InitMessage := "Responder Chain инициализирован"
  const Button1Message := "🎯 Button 1 нажата"
  const Button1Note := "📱 Событие передается в Responder Chain"
  const PassedToView := "⬆️ Событие передается в ResponderChainDemoView"
  const PassedToController := "⬆️ Событие передается в ViewController"
  const PassedToWindow := "⬆️ Событие передается в UIWindow"
  const PassedToApplication := "⬆️ Событие передается в UIApplication"
  const HandledMessage := "✅ Событие обработано или проигнорировано"
  const Button2Message := "🎯 Button 2 нажата"
  const Button2Note := "🔄 Демонстрация кастомного обработчика событий"
  const InterceptedMessage := "🛑 Событие перехвачено в ResponderChainDemoView"
  const NotPassedMessage := "❌ Событие НЕ передается дальше по цепочке"
  const Button3Message := "🎯 Button 3 нажата"
  const Button3Note := "🔍 Демонстрация поиска следующего responder'а"
  const NextResponderPrefix := "🔍 Следующий responder: "
  const NoNextResponderMessage := "🔍 Следующий responder не найден"
  const ChainHeader := "📋 Полная цепочка responder'ов:"
  const ChainMarker := "... (цепочка обрезана)"
  /** logResponderChain stops once the level passes this. */
  const ChainCap: nat := 10

  /** The closures the buttons schedule. */
  datatype Action =
    | Say(message: string)  // one addLogMessage
    | Intercept             // button 2: the two "intercepted" lines
    | ReportNext            // button 3: name the next responder
    | ListChain             // button 3: a header, then logResponderChain

  const Button1Timers: seq<Timer<Action>> := [
    Timer(500, Say(PassedToView)),
    Timer(1000, Say(PassedToController)),
    Timer(1500, Say(PassedToWindow)),
    Timer(2000, Say(PassedToApplication)),
    Timer(2500, Say(HandledMessage))
  ]

  const Button2Timers: seq<Timer<Action>> := [Timer(500, Intercept)]

  const Button3Timers: seq<Timer<Action>> := [Timer(500, ReportNext), Timer(1000, ListChain)]

  /** The lines logResponderChain collects in `chain`: WalkLines with cap 10. */
  function ResponderChainLines(g: Graph, id: Id): seq<string>
    requires g.Valid() && id in g.link
  {
    WalkLines(g, id, ChainCap, ChainMarker)
  }

  function NextResponderMessage(g: Graph, id: Id): string
    requires g.Valid() && id in g.link
  {
    match g.link[id]
    case Some(n) => NextResponderPrefix + g.name[n]
    case None => NoNextResponderMessage
  }

  /** What a closure logs when it runs. */
  function ActionMessages(g: Graph, id: Id, a: Action): seq<string>
    requires g.Valid() && id in g.link
  {
    match a
    case Say(m) => [m]
    case Intercept => [InterceptedMessage, NotPassedMessage]
    case ReportNext => [NextResponderMessage(g, id)]
    case ListChain => [ChainHeader] + ResponderChainLines(g, id)
  }

  /** What closures log when they run one after another in the order given. */
  function Fired(g: Graph, id: Id, ts: seq<Timer<Action>>): seq<string>
    requires g.Valid() && id in g.link
  {
    if ts == [] then [] else ActionMessages(g, id, ts[0].action) + Fired(g, id, ts[1..])
  }

  /** What a batch of closures logs once the main queue has run all of them. */
  function Narration(g: Graph, id: Id, ts: seq<Timer<Action>>): seq<string>
    requires g.Valid() && id in g.link
  {
    Fired(g, id, FiringOrder(ts))
  }

  /** logResponderChain's truncation line can never be read as a level line. */
  lemma ChainMarkerIsNotLevelLine(level: nat)
    ensures ParseLevelLine(MarkerLine(level, ChainMarker)).None?
  {
    MarkerLineIsNotLevelLine(level, ChainMarker);
  }

  /** A chain of n <= 10 responders: n lines naming them in order, no marker. */
  lemma ResponderShortChain(g: Graph, id: Id, n: nat)
    requires g.Valid() && id in g.link
    requires ChainLength(g, id, n) && n <= 10
    ensures |ResponderChainLines(g, id)| == n
    ensures forall k :: 0 <= k < n ==>
      ResponderChainLines(g, id)[k] == LevelLine(k, g.name[Ancestor(g, id, k).value])
  {
    WalkShortChain(g, id, ChainCap, ChainMarker, n);
  }

  /** A chain of 11 or more responders (11 included): levels 0..10, then the marker at level 11. */
  lemma ResponderLongChain(g: Graph, id: Id)
    requires g.Valid() && id in g.link
    requires Ancestor(g, id, 10).Some?
    ensures |ResponderChainLines(g, id)| == 12
    ensures forall k :: 0 <= k <= 10 ==>
      ResponderChainLines(g, id)[k] == LevelLine(k, g.name[Ancestor(g, id, k).value])
    ensures ResponderChainLines(g, id)[11] == MarkerLine(11, ChainMarker)
  {
    WalkLongChain(g, id, ChainCap, ChainMarker);
  }

  /** On any `next` map, cyclic ones included, `chain` holds between 1 and 12 lines. */
  lemma ResponderChainBounded(g: Graph, id: Id)
    requires g.Valid() && id in g.link
    ensures 1 <= |ResponderChainLines(g, id)| <= 12
  {
    WalkBounded(g, id, ChainCap, ChainMarker);
  }

  /** A responder that is its own `next` is listed eleven times, then cut off. */
  lemma ResponderSelfLoop(g: Graph, id: Id)
    requires g.Valid() && id in g.link && g.link[id] == Some(id)
    ensures |ResponderChainLines(g, id)| == 12
    ensures forall k :: 0 <= k <= 10 ==> ResponderChainLines(g, id)[k] == LevelLine(k, g.name[id])
    ensures ResponderChainLines(g, id)[11] == MarkerLine(11, ChainMarker)
  {
    WalkSelfLink(g, id, ChainCap, ChainMarker);
  }

  /**
   * Button 3's first report and the chain's level-1 line name the same
   * responder; with no `next`, the report says so and the chain is the view alone.
   */
  lemma NextResponderAgrees(g: Graph, id: Id)
    requires g.Valid() && id in g.link
    ensures g.link[id].Some? ==>
      && NextResponderMessage(g, id) == NextResponderPrefix + g.name[g.link[id].value]
      && |ResponderChainLines(g, id)| >= 2
      && ResponderChainLines(g, id)[1] == LevelLine(1, g.name[g.link[id].value])
    ensures g.link[id].None? ==>
      && NextResponderMessage(g, id) == NoNextResponderMessage
      && ResponderChainLines(g, id) == [LevelLine(0, g.name[id])]
  {
    assert Ancestor(g, id, 0) == Some(id);
    if g.link[id].Some? {
      assert Ancestor(g, id, 1) == g.link[id];
      if Ancestor(g, id, 10).Some? {
        ResponderLongChain(g, id);
      } else {
        var n := Reach(g, id, 11);
        assert n >= 2;
        assert n <= 10;
        ReachIs(g, id, 11, n);
        ResponderShortChain(g, id, n);
      }
    } else {
      assert Ancestor(g, id, 1).None?;
      ResponderShortChain(g, id, 1);
    }
  }

  lemma {:induction false} FiredAppend(g: Graph, id: Id, a: seq<Timer<Action>>, b: seq<Timer<Action>>)
    requires g.Valid() && id in g.link
    ensures Fired(g, id, a + b) == Fired(g, id, a) + Fired(g, id, b)
    decreases a
  {
    if a == [] {
      assert a + b == b;
    } else {
      assert (a + b)[1..] == a[1..] + b;
      FiredAppend(g, id, a[1..], b);
    }
  }

  lemma FiredSingle(g: Graph, id: Id, t: Timer<Action>)
    requires g.Valid() && id in g.link
    ensures Fired(g, id, [t]) == ActionMessages(g, id, t.action)
  {
    assert [t][1..] == [];
  }

  lemma FiredPair(g: Graph, id: Id, t: Timer<Action>, u: Timer<Action>)
    requires g.Valid() && id in g.link
    ensures Fired(g, id, [t, u]) == ActionMessages(g, id, t.action) + ActionMessages(g, id, u.action)
  {
    assert [t, u] == [t] + [u];
    FiredAppend(g, id, [t], [u]);
    FiredSingle(g, id, t);
    FiredSingle(g, id, u);
  }

  lemma FiredFiveSays(g: Graph, id: Id, t0: Timer<Action>, t1: Timer<Action>, t2: Timer<Action>,
                      t3: Timer<Action>, t4: Timer<Action>)
    requires g.Valid() && id in g.link
    requires t0.action.Say? && t1.action.Say? && t2.action.Say? && t3.action.Say? && t4.action.Say?
    ensures Fired(g, id, [t0, t1, t2, t3, t4])
      == [t0.action.message, t1.action.message, t2.action.message, t3.action.message, t4.action.message]
  {
    assert [t0, t1, t2, t3, t4] == [t0] + [t1, t2] + [t3, t4];
    FiredAppend(g, id, [t0] + [t1, t2], [t3, t4]);
    FiredAppend(g, id, [t0], [t1, t2]);
    FiredSingle(g, id, t0);
    FiredPair(g, id, t1, t2);
    FiredPair(g, id, t3, t4);
  }

  /** Button 1's closures have strictly increasing delays, 0.5 s apart, the last at 2.5 s. */
  lemma Button1Delays()
    ensures |Button1Timers| == 5
    ensures forall i :: 0 <= i < 5 ==> Button1Timers[i].delayMs == 500 * (i + 1)
    ensures forall i, j :: 0 <= i < j < 5 ==> Button1Timers[i].delayMs < Button1Timers[j].delayMs
  {
  }

  /** ...so they run in the order they were scheduled, narrating the event's way up the chain. */
  lemma Button1Narration(g: Graph, id: Id)
    requires g.Valid() && id in g.link
    ensures Narration(g, id, Button1Timers)
      == [PassedToView, PassedToController, PassedToWindow, PassedToApplication, HandledMessage]
  {
    Button1Delays();
    FiringOrderOfSorted(Button1Timers);
    var ts := Button1Timers;
    FiredFiveSays(g, id, ts[0], ts[1], ts[2], ts[3], ts[4]);
    assert ts == [ts[0], ts[1], ts[2], ts[3], ts[4]];
  }

  /** Button 2's one closure logs the interception and stops there. */
  lemma Button2Narration(g: Graph, id: Id)
    requires g.Valid() && id in g.link
    ensures Narration(g, id, Button2Timers) == [InterceptedMessage, NotPassedMessage]
  {
    FiringOrderOfSorted(Button2Timers);
    FiredSingle(g, id, Button2Timers[0]);
  }

  /** A next-responder closure followed by a chain-listing closure. */
  lemma FiredReportThenList(g: Graph, id: Id, t: Timer<Action>, u: Timer<Action>)
    requires g.Valid() && id in g.link
    requires t.action == ReportNext && u.action == ListChain
    ensures Fired(g, id, [t, u]) == [NextResponderMessage(g, id), ChainHeader] + ResponderChainLines(g, id)
  {
    FiredPair(g, id, t, u);
    var next, chain := NextResponderMessage(g, id), ResponderChainLines(g, id);
    assert ActionMessages(g, id, t.action) == [next];
    assert ActionMessages(g, id, u.action) == [ChainHeader] + chain;
    PairThen(next, ChainHeader, chain);
  }

  lemma PairThen(a: string, b: string, rest: seq<string>)
    ensures [a] + ([b] + rest) == [a, b] + rest
  {
  }

  /** Button 3 names the next responder first and lists the whole chain half a second later. */
  lemma Button3Narration(g: Graph, id: Id)
    requires g.Valid() && id in g.link
    ensures Narration(g, id, Button3Timers)
      == [NextResponderMessage(g, id), ChainHeader] + ResponderChainLines(g, id)
  {
    var ts := Button3Timers;
    FiringOrderOfSorted(ts);
    FiredReportThenList(g, id, ts[0], ts[1]);
    assert ts == [ts[0], ts[1]];
  }

  class ResponderChainDemoView {
    /** This view among the responders of `next` maps. */
    const id: Id
    var logMessages: seq<string>

    /** setupUI ends by logging that the demo is ready. */
    constructor (id: Id, clock: nat -> string)
      ensures this.id == id
      ensures logMessages == Stamped(clock, 0, [InitMessage])
    {
      this.id := id;
      logMessages := [];
      new;
      AddLogMessage(InitMessage, clock(0));
      StampedSingle(clock, 0, InitMessage);
    }

    method AddLogMessage(message: string, timestamp: string)
      modifies this
      ensures logMessages == old(logMessages) + [Stamp(timestamp, message)]
    {
      logMessages := logMessages + [Stamp(timestamp, message)];
    }

    /**
     * addLogMessage, for a caller that keeps track of what it has appended
     * since the log was `before`.
     */
    method LogTracked(message: string, clock: nat -> string, ghost before: seq<string>, ghost said: seq<string>)
      requires logMessages == before + Stamped(clock, |before|, said)
      modifies this
      ensures logMessages == before + Stamped(clock, |before|, said + [message])
      ensures logMessages == old(logMessages) + [Stamp(clock(|old(logMessages)|), message)]
    {
      StampedNext(clock, before, |before|, said, message, logMessages);
      AddLogMessage(message, clock(|logMessages|));
    }

    /** Logs the two lines of a tap, for the three handlers below. */
    method LogTap(first: string, second: string, clock: nat -> string)
      modifies this
      ensures logMessages == old(logMessages) + Stamped(clock, |old(logMessages)|, [first, second])
    {
      ghost var before := logMessages;
      LogTracked(first, clock, before, []);
      LogTracked(second, clock, before, [first]);
    }

    /** The event passes up the chain: two lines now, five more 0.5 s apart. */
    method Button1Tapped(clock: nat -> string) returns (timers: seq<Timer<Action>>)
      modifies this
      ensures timers == Button1Timers
      ensures logMessages == old(logMessages) + Stamped(clock, |old(logMessages)|, [Button1Message, Button1Note])
    {
      LogTap(Button1Message, Button1Note, clock);
      timers := Button1Timers;
    }

    /** The event is intercepted: two lines now, two more after 0.5 s. */
    method Button2Tapped(clock: nat -> string) returns (timers: seq<Timer<Action>>)
      modifies this
      ensures timers == Button2Timers
      ensures logMessages == old(logMessages) + Stamped(clock, |old(logMessages)|, [Button2Message, Button2Note])
    {
      LogTap(Button2Message, Button2Note, clock);
      timers := Button2Timers;
    }

    /** The next responder after 0.5 s, the whole chain after 1 s. */
    method Button3Tapped(clock: nat -> string) returns (timers: seq<Timer<Action>>)
      modifies this
      ensures timers == Button3Timers
      ensures logMessages == old(logMessages) + Stamped(clock, |old(logMessages)|, [Button3Message, Button3Note])
    {
      LogTap(Button3Message, Button3Note, clock);
      timers := Button3Timers;
    }

    /** Runs one scheduled closure. */
    method RunAction(g: Graph, a: Action, clock: nat -> string)
      requires g.Valid() && id in g.link
      modifies this
      ensures logMessages == old(logMessages) + Stamped(clock, |old(logMessages)|, ActionMessages(g, id, a))
    {
      ghost var before := logMessages;
      match a
      case Say(m) =>
        LogTracked(m, clock, before, []);
      case Intercept =>
        LogTap(InterceptedMessage, NotPassedMessage, clock);
      case ReportNext =>
        var next := g.link[id];
        if next.Some? {
          LogTracked(NextResponderPrefix + g.name[next.value], clock, before, []);
        } else {
          LogTracked(NoNextResponderMessage, clock, before, []);
        }
      case ListChain =>
        LogTracked(ChainHeader, clock, before, []);
        ghost var headed := logMessages;
        LogResponderChain(g, clock);
        StampedThen(clock, before, [ChainHeader], ResponderChainLines(g, id), headed, logMessages);
    }

    /**
     * Collects one line per responder up the `next` chain, capped at level
     * 10, then logs the collected lines in order.
     */
    method LogResponderChain(g: Graph, clock: nat -> string)
      requires g.Valid() && id in g.link
      modifies this
      ensures logMessages == old(logMessages) + Stamped(clock, |old(logMessages)|, ResponderChainLines(g, id))
    {
      var chain := CollectChain(g);
      ghost var before := logMessages;
      for i := 0 to |chain|
        invariant logMessages == before + Stamped(clock, |before|, chain[..i])
      {
        LogTracked(chain[i], clock, before, chain[..i]);
        PrefixNext(chain, i);
      }
      assert chain[..|chain|] == chain;
    }

    /** The walk of logResponderChain, which only builds `chain`. */
    method CollectChain(g: Graph) returns (chain: seq<string>)
      requires g.Valid() && id in g.link
      ensures chain == ResponderChainLines(g, id)
    {
      var responder := Some(id);
      chain := [];
      var level: nat := 0;
      while responder.Some?
        invariant level <= ChainCap
        invariant responder == Ancestor(g, id, level)
        invariant forall k :: 0 <= k < level ==> Ancestor(g, id, k).Some?
        invariant chain == LevelLines(g, id, level)
        decreases ChainCap - level
      {
        var current := responder.value;
        LevelLinesNext(g, id, level);
        chain := chain + [LevelLine(level, g.name[current])];
        responder := g.link[current];
        level := level + 1;
        if level > ChainCap {
          chain := chain + [MarkerLine(level, ChainMarker)];
          break;
        }
      }
      ReachIs(g, id, ChainCap + 1, level);
    }
  }
}
