/**
 * HitTestDemoView and the two view classes it hosts (TransparentView,
 * OverlappingView). UIKit's own `hitTest` and `point(inside:)`, which the
 * overrides call as `super`, are not modelled: their answers are
 * parameters (`superHit`, `superInside`), and so are the messages that
 * this view's own point(inside:) override logs while UIKit's algorithm runs
 * (`superMessages`).
 */
module HitTestDemo {
  import opened Wrappers
  import opened Text
  import opened EventLog
  import opened Graphs
  import opened ChainWalk
  import opened MainQueue

  datatype Point = Point(x: int, y: int)

  datatype Rect = Rect(x: int, y: int, width: nat, height: nat)

  /** `CGRect.contains`: the minimum edges belong to the rectangle, the maximum edges do not. */
  predicate Contains(r: Rect, p: Point) {
    r.x <= p.x < r.x + r.width && r.y <= p.y < r.y + r.height
  }

  /** How a view class answers hit testing. */
  datatype HitPolicy =
    | Inherited    // UIView's own answers; HitTestDemoView only logs around them
    | Transparent  // TransparentView: refuses every point
    | Overlapping  // OverlappingView: takes every point inside its bounds

  function PolicyPointInside(policy: HitPolicy, superInside: bool): bool {
    match policy
    case Transparent => false
    case _ => superInside
  }

  function PolicyHitTest(policy: HitPolicy, self: Id, bounds: Rect, p: Point, superHit: Option<Id>): Option<Id> {
    match policy
    case Inherited => superHit
    case Transparent => None
    case Overlapping => if Contains(bounds, p) then Some(self) else superHit
  }

  lemma TransparentRefusesEveryPoint(self: Id, bounds: Rect, p: Point, superInside: bool, superHit: Option<Id>)
    ensures !PolicyPointInside(Transparent, superInside)
    ensures PolicyHitTest(Transparent, self, bounds, p, superHit) == None
  {
  }

  /** Inside its bounds an OverlappingView answers itself, whatever its subviews would say. */
  lemma OverlappingCapturesInside(self: Id, bounds: Rect, p: Point, superHit: Option<Id>, otherHit: Option<Id>)
    requires Contains(bounds, p)
    ensures PolicyHitTest(Overlapping, self, bounds, p, superHit) == Some(self)
    ensures PolicyHitTest(Overlapping, self, bounds, p, superHit) == PolicyHitTest(Overlapping, self, bounds, p, otherHit)
  {
  }

  lemma OverlappingDefersOutside(self: Id, bounds: Rect, p: Point, superHit: Option<Id>)
    requires !Contains(bounds, p)
    ensures PolicyHitTest(Overlapping, self, bounds, p, superHit) == superHit
  {
  }

  lemma InheritedForwards(self: Id, bounds: Rect, p: Point, superInside: bool, superHit: Option<Id>)
    ensures PolicyPointInside(Inherited, superInside) == superInside
    ensures PolicyHitTest(Inherited, self, bounds, p, superHit) == superHit
  {
  }

  /**
   * No policy invents a view: the answer is UIKit's own, nothing, or the view
   * itself for a point inside its bounds.
   */
  lemma PolicyHitSound(policy: HitPolicy, self: Id, bounds: Rect, p: Point, superHit: Option<Id>)
    ensures var r := PolicyHitTest(policy, self, bounds, p, superHit);
      r == superHit || r == None || (r == Some(self) && Contains(bounds, p) && policy == Overlapping)
    ensures PolicyHitTest(policy, self, bounds, p, superHit) != superHit ==>
      (policy == Transparent && superHit.Some?) || (policy == Overlapping && Contains(bounds, p))
  {
  }

  // The views performHitTest compares the hit against.
  datatype Subviews = Subviews(main: Id, hitTestArea: Id, transparentView: Id, overlappingView: Id)

  predicate Distinct(views: Subviews) {
    && views.main != views.hitTestArea && views.main != views.transparentView
    && views.main != views.overlappingView && views.hitTestArea != views.transparentView
    && views.hitTestArea != views.overlappingView && views.transparentView != views.overlappingView
  }

  datatype Area = HitTestAreaHit | TransparentHit | OverlappingHit | MainViewHit | UnknownHit

  /** The first of performHitTest's comparisons that holds, in the order they are made. */
  function AreaOf(views: Subviews, hit: Id): Area {
    if hit == views.hitTestArea then HitTestAreaHit
    else if hit == views.transparentView then TransparentHit
    else if hit == views.overlappingView then OverlappingHit
    else if hit == views.main then MainViewHit
    else UnknownHit
  }

  /** For distinct views each area is reported for exactly its own view. */
  lemma AreaOfDistinct(views: Subviews, hit: Id)
    requires Distinct(views)
    ensures AreaOf(views, hit) == HitTestAreaHit <==> hit == views.hitTestArea
    ensures AreaOf(views, hit) == TransparentHit <==> hit == views.transparentView
    ensures AreaOf(views, hit) == OverlappingHit <==> hit == views.overlappingView
    ensures AreaOf(views, hit) == MainViewHit <==> hit == views.main
    ensures AreaOf(views, hit) == UnknownHit <==>
      hit !in {views.main, views.hitTestArea, views.transparentView, views.overlappingView}
  {
  }

  const ReadyMessage := "HitTest демо инициализировано"
  const HintMessage := "💡 Нажмите на разные области для демонстрации"
  const RunningMessage := "🔍 Выполняется HitTest..."
  const NoHitMessage := "❌ HitTest не вернул view"
  const HitTestAreaLine := "📍 Нажатие в HitTest Area (синяя область)"
  const HitTestAreaNote := "✅ View может получать touch события"
  const TransparentLine := "📍 Нажатие в Transparent View (красная рамка)"
  const TransparentNote := "⚠️ View прозрачная, но может получать события"
  const OverlappingLine := "📍 Нажатие в Overlapping View (зеленая область)"
  const OverlappingNote := "🔄 View перекрывает другие view"
  const MainViewLine := "📍 Нажатие в основной HitTestDemoView"
  const MainViewNote := "📱 Основной view получил событие"
  const UnknownLine := "📍 Нажатие в неизвестной области"
  const FoundResultPrefix := "✅ Стандартный hitTest вернул: "
  const NilResultMessage := "❌ Стандартный hitTest вернул nil"
  const HierarchyMarker := "... (иерархия обрезана)"
  const HierarchyCap: nat := 5
  /** performHitTest shows the hit view's hierarchy this long after the tap. */
  const HierarchyDelayMs: nat := 500

  /** What performHitTest leaves on the main queue: the hierarchy walk of the hit view, if any. */
  function HierarchyTimers(hit: Option<Id>): (ts: seq<Timer<Id>>)
    ensures hit.None? <==> ts == []
    ensures hit.Some? ==> ts == [Timer(HierarchyDelayMs, hit.value)]
  {
    if hit.Some? then [Timer(HierarchyDelayMs, hit.value)] else []
  }

  function PointText(p: Point): string {
    "(" + IntToString(p.x) + ", " + IntToString(p.y) + ")"
  }

  function TapMessage(p: Point): string { "👆 Нажатие в точке: " + PointText(p) }

  function HitTypeMessage(name: string): string { "🎯 HitTest вернул: " + name }

  function HitTestCalledMessage(p: Point): string {
    "🔍 hitTest вызван в HitTestDemoView для точки " + PointText(p)
  }

  function HitTestResultMessage(g: Graph, hit: Option<Id>): string
    requires hit.Some? ==> hit.value in g.name
  {
    match hit
    case Some(v) => FoundResultPrefix + g.name[v]
    case None => NilResultMessage
  }

  function PointInsideMessage(isInside: bool): string {
    "📍 point(inside:) вызван: " + (if isInside then "внутри" else "снаружи")
  }

  function HierarchyHeader(name: string): string { "📋 Иерархия view для " + name + ":" }

  function AreaMessages(area: Area): seq<string> {
    match area
    case HitTestAreaHit => [HitTestAreaLine, HitTestAreaNote]
    case TransparentHit => [TransparentLine, TransparentNote]
    case OverlappingHit => [OverlappingLine, OverlappingNote]
    case MainViewHit => [MainViewLine, MainViewNote]
    case UnknownHit => [UnknownLine]
  }

  /** What performHitTest logs once hitTest has answered. */
  function HitReport(g: Graph, views: Subviews, hit: Option<Id>): seq<string>
    requires hit.Some? ==> hit.value in g.name
  {
    match hit
    case None => [NoHitMessage]
    case Some(v) => [HitTypeMessage(g.name[v])] + AreaMessages(AreaOf(views, v))
  }

  /**
   * A nil hit is reported by one line; a hit by its type line followed by the
   * lines of the first area it matches (two, or one for an unknown view).
   */
  lemma HitReportShape(g: Graph, views: Subviews, hit: Option<Id>)
    requires hit.Some? ==> hit.value in g.name
    ensures var r := HitReport(g, views, hit);
      && (hit.None? ==> r == [NoHitMessage])
      && (hit.Some? ==>
            && r[0] == HitTypeMessage(g.name[hit.value])
            && r[1..] == AreaMessages(AreaOf(views, hit.value))
            && |r| == if AreaOf(views, hit.value) == UnknownHit then 2 else 3)
  {
  }

  /**
   * The messages the hitTest override logs: one before calling UIKit's
   * hitTest, those UIKit's callbacks into point(inside:) log meanwhile, and
   * one naming the result.
   */
  function HitTestMessages(g: Graph, p: Point, superHit: Option<Id>, superMessages: seq<string>): seq<string>
    requires superHit.Some? ==> superHit.value in g.name
  {
    [HitTestCalledMessage(p)] + superMessages + [HitTestResultMessage(g, superHit)]
  }

  /** The messages performHitTest logs: its own first line, the override's, then the report. */
  function PerformHitTestMessages(g: Graph, views: Subviews, p: Point, superHit: Option<Id>,
                                  superMessages: seq<string>): seq<string>
    requires superHit.Some? ==> superHit.value in g.name
  {
    [RunningMessage] + HitTestMessages(g, p, superHit, superMessages) + HitReport(g, views, superHit)
  }

  /**
   * A nil hit adds exactly two lines of performHitTest's own, the running line
   * first and the "not found" line last, around the override's lines, and
   * the override's last line says nil too.
   */
  lemma PerformHitTestNil(g: Graph, views: Subviews, p: Point, superMessages: seq<string>)
    ensures var m := PerformHitTestMessages(g, views, p, None, superMessages);
      && |m| == 4 + |superMessages|
      && m[0] == RunningMessage
      && m[1..3 + |superMessages|] == HitTestMessages(g, p, None, superMessages)
      && m[2 + |superMessages|] == NilResultMessage
      && m[|m| - 1] == NoHitMessage
  {
    var m := PerformHitTestMessages(g, views, p, None, superMessages);
    var h := HitTestMessages(g, p, None, superMessages);
    assert m == [RunningMessage] + h + [NoHitMessage];
  }

  /**
   * On a hit, the override's result line and performHitTest's type line name
   * the same view, one after the other; the area lines follow and end the report.
   */
  lemma PerformHitTestFound(g: Graph, views: Subviews, p: Point, v: Id, superMessages: seq<string>)
    requires v in g.name
    ensures var m := PerformHitTestMessages(g, views, p, Some(v), superMessages);
      && m[0] == RunningMessage
      && m[1..3 + |superMessages|] == HitTestMessages(g, p, Some(v), superMessages)
      && m[2 + |superMessages|] == FoundResultPrefix + g.name[v]
      && m[3 + |superMessages|] == HitTypeMessage(g.name[v])
      && m[4 + |superMessages|..] == AreaMessages(AreaOf(views, v))
  {
    var m := PerformHitTestMessages(g, views, p, Some(v), superMessages);
    var h := HitTestMessages(g, p, Some(v), superMessages);
    var area := AreaMessages(AreaOf(views, v));
    assert m == [RunningMessage] + h + [HitTypeMessage(g.name[v])] + area;
  }

  function HierarchyLines(g: Graph, v: Id): seq<string>
    requires g.Valid() && v in g.link
  {
    WalkLines(g, v, HierarchyCap, HierarchyMarker)
  }

  /** A superview chain of n <= 5 views: n level lines naming the views in order, no marker. */
  /** showViewHierarchy's truncation line can never be read as a level line. */
  lemma HierarchyMarkerIsNotLevelLine(level: nat)
    ensures ParseLevelLine(MarkerLine(level, HierarchyMarker)).None?
  {
    MarkerLineIsNotLevelLine(level, HierarchyMarker);
  }

  lemma HierarchyShortChain(g: Graph, v: Id, n: nat)
    requires g.Valid() && v in g.link
    requires ChainLength(g, v, n) && n <= 5
    ensures |HierarchyLines(g, v)| == n
    ensures forall k :: 0 <= k < n ==>
      HierarchyLines(g, v)[k] == LevelLine(k, g.name[Ancestor(g, v, k).value])
  {
    WalkShortChain(g, v, HierarchyCap, HierarchyMarker, n);
  }

  /** A chain of 6 or more views (6 included): levels 0..5, then the marker at level 6. */
  lemma HierarchyLongChain(g: Graph, v: Id)
    requires g.Valid() && v in g.link
    requires Ancestor(g, v, 5).Some?
    ensures |HierarchyLines(g, v)| == 7
    ensures forall k :: 0 <= k <= 5 ==>
      HierarchyLines(g, v)[k] == LevelLine(k, g.name[Ancestor(g, v, k).value])
    ensures HierarchyLines(g, v)[6] == MarkerLine(6, HierarchyMarker)
  {
    WalkLongChain(g, v, HierarchyCap, HierarchyMarker);
  }

  /** With its header, showViewHierarchy appends between 2 and 1 + 6 + 1 entries on any superview map. */
  lemma HierarchyBounded(g: Graph, v: Id)
    requires g.Valid() && v in g.link
    ensures 2 <= 1 + |HierarchyLines(g, v)| <= 8
  {
    WalkBounded(g, v, HierarchyCap, HierarchyMarker);
  }

  class HitTestDemoView {
    const views: Subviews
    var logMessages: seq<string>

    /** setupUI ends by logging the two start-up messages. */
    constructor (views: Subviews, clock: nat -> string)
      ensures this.views == views
      ensures logMessages == Stamped(clock, 0, [ReadyMessage, HintMessage])
    {
      this.views := views;
      logMessages := [];
      new;
      AddLogMessage(ReadyMessage, clock(0));
      AddLogMessage(HintMessage, clock(1));
    }

    method AddLogMessage(message: string, timestamp: string)
      modifies this
      ensures logMessages == old(logMessages) + [Stamp(timestamp, message)]
    {
      logMessages := logMessages + [Stamp(timestamp, message)];
    }

    /** The point(inside:) override: UIKit's answer unchanged, and one line saying which. */
    method PointInside(p: Point, superInside: bool, clock: nat -> string) returns (isInside: bool)
      modifies this
      ensures isInside == PolicyPointInside(Inherited, superInside) == superInside
      ensures logMessages == old(logMessages)
        + [Stamp(clock(|old(logMessages)|), PointInsideMessage(superInside))]
    {
      isInside := superInside;
      AddLogMessage(PointInsideMessage(isInside), clock(|logMessages|));
    }

    /**
     * The hitTest override: UIKit's answer unchanged, one line before the call
     * and one line after it naming the result. UIKit's hitTest calls back into
     * point(inside:), whose lines (`superMessages`) fall in between.
     */
    method HitTest(g: Graph, p: Point, superHit: Option<Id>, superMessages: seq<string>, clock: nat -> string)
      returns (hitView: Option<Id>)
      requires superHit.Some? ==> superHit.value in g.name
      modifies this
      ensures hitView == superHit
      ensures logMessages == old(logMessages)
        + Stamped(clock, |old(logMessages)|, HitTestMessages(g, p, superHit, superMessages))
    {
      ghost var before := logMessages;
      LogTracked(HitTestCalledMessage(p), clock, before, []);
      ghost var called := logMessages;
      logMessages := logMessages + Stamped(clock, |logMessages|, superMessages);
      StampedThen(clock, before, [HitTestCalledMessage(p)], superMessages, called, logMessages);
      hitView := superHit;
      if hitView.Some? {
        LogTracked(FoundResultPrefix + g.name[hitView.value], clock, before, [HitTestCalledMessage(p)] + superMessages);
      } else {
        LogTracked(NilResultMessage, clock, before, [HitTestCalledMessage(p)] + superMessages);
      }
    }

    /**
     * Runs this view's hitTest, reports the area, and returns what it
     * schedules: the hit view's hierarchy after HierarchyDelayMs, nothing on a nil hit.
     */
    method PerformHitTest(g: Graph, p: Point, superHit: Option<Id>, superMessages: seq<string>, clock: nat -> string)
      returns (scheduled: seq<Timer<Id>>)
      requires superHit.Some? ==> superHit.value in g.name
      modifies this
      ensures scheduled == HierarchyTimers(superHit)
      ensures logMessages == old(logMessages)
        + Stamped(clock, |old(logMessages)|, PerformHitTestMessages(g, views, p, superHit, superMessages))
    {
      ghost var before := logMessages;
      LogTracked(RunningMessage, clock, before, []);
      ghost var running := logMessages;
      var hit := HitTest(g, p, superHit, superMessages, clock);
      ghost var called := [RunningMessage] + HitTestMessages(g, p, superHit, superMessages);
      StampedThen(clock, before, [RunningMessage], HitTestMessages(g, p, superHit, superMessages), running, logMessages);
      ghost var tested := logMessages;
      ReportHit(g, hit, clock);
      StampedThen(clock, before, called, HitReport(g, views, superHit), tested, logMessages);
      scheduled := HierarchyTimers(hit);
    }

    /** The second half of performHitTest: the hit view's type, then its area. */
    method ReportHit(g: Graph, hit: Option<Id>, clock: nat -> string)
      requires hit.Some? ==> hit.value in g.name
      modifies this
      ensures logMessages == old(logMessages) + Stamped(clock, |old(logMessages)|, HitReport(g, views, hit))
    {
      ghost var before := logMessages;
      if hit.Some? {
        var hitView := hit.value;
        LogTracked(HitTypeMessage(g.name[hitView]), clock, before, []);
        ghost var typed := logMessages;
        ReportArea(hitView, clock);
        StampedThen(clock, before, [HitTypeMessage(g.name[hitView])], AreaMessages(AreaOf(views, hitView)),
                    typed, logMessages);
      } else {
        LogTracked(NoHitMessage, clock, before, []);
      }
    }

    /** The comparisons performHitTest makes, in order, each logging its area's lines. */
    method ReportArea(hitView: Id, clock: nat -> string)
      modifies this
      ensures logMessages == old(logMessages)
        + Stamped(clock, |old(logMessages)|, AreaMessages(AreaOf(views, hitView)))
    {
      ghost var before := logMessages;
      if hitView == views.hitTestArea {
        LogTracked(HitTestAreaLine, clock, before, []);
        LogTracked(HitTestAreaNote, clock, before, [HitTestAreaLine]);
      } else if hitView == views.transparentView {
        LogTracked(TransparentLine, clock, before, []);
        LogTracked(TransparentNote, clock, before, [TransparentLine]);
      } else if hitView == views.overlappingView {
        LogTracked(OverlappingLine, clock, before, []);
        LogTracked(OverlappingNote, clock, before, [OverlappingLine]);
      } else if hitView == views.main {
        LogTracked(MainViewLine, clock, before, []);
        LogTracked(MainViewNote, clock, before, [MainViewLine]);
      } else {
        LogTracked(UnknownLine, clock, before, []);
      }
    }

    /**
     * addLogMessage, for a caller that keeps track of what it has appended
     * since the log was `before`.
     */
    method LogTracked(message: string, clock: nat -> string, ghost before: seq<string>, ghost said: seq<string>)
      requires logMessages == before + Stamped(clock, |before|, said)
      modifies this
      ensures logMessages == before + Stamped(clock, |before|, said + [message])
      ensures logMessages == old(logMessages) + [Stamp(clock(|old(logMessages)|), message)]
    {
      StampedNext(clock, before, |before|, said, message, logMessages);
      AddLogMessage(message, clock(|logMessages|));
    }

    /** The tap handler: logs the tapped point, then performs the hit test. */
    method HandleTap(g: Graph, p: Point, superHit: Option<Id>, superMessages: seq<string>, clock: nat -> string)
      returns (scheduled: seq<Timer<Id>>)
      requires superHit.Some? ==> superHit.value in g.name
      modifies this
      ensures scheduled == HierarchyTimers(superHit)
      ensures logMessages == old(logMessages)
        + Stamped(clock, |old(logMessages)|, [TapMessage(p)] + PerformHitTestMessages(g, views, p, superHit, superMessages))
    {
      ghost var before := logMessages;
      LogTracked(TapMessage(p), clock, before, []);
      ghost var tapped := logMessages;
      scheduled := PerformHitTest(g, p, superHit, superMessages, clock);
      StampedThen(clock, before, [TapMessage(p)], PerformHitTestMessages(g, views, p, superHit, superMessages),
                  tapped, logMessages);
    }

    /** Logs a header, then one line per superview up the chain, capped at level 5. */
    method ShowViewHierarchy(g: Graph, view: Id, clock: nat -> string)
      requires g.Valid() && view in g.link
      modifies this
      ensures logMessages == old(logMessages)
        + Stamped(clock, |old(logMessages)|, [HierarchyHeader(g.name[view])] + HierarchyLines(g, view))
    {
      ghost var before := logMessages;
      ghost var said: seq<string> := [];
      LogTracked(HierarchyHeader(g.name[view]), clock, before, said);
      said := said + [HierarchyHeader(g.name[view])];
      ghost var header := said;
      var currentView := Some(view);
      var level: nat := 0;
      while currentView.Some?
        invariant level <= HierarchyCap
        invariant currentView == Ancestor(g, view, level)
        invariant forall k :: 0 <= k < level ==> Ancestor(g, view, k).Some?
        invariant said == header + LevelLines(g, view, level)
        invariant logMessages == before + Stamped(clock, |before|, said)
        decreases HierarchyCap - level
      {
        var v := currentView.value;
        LevelLinesNext(g, view, level);
        LogTracked(LevelLine(level, g.name[v]), clock, before, said);
        said := said + [LevelLine(level, g.name[v])];
        currentView := g.link[v];
        level := level + 1;
        if level > HierarchyCap {
          LogTracked(MarkerLine(level, HierarchyMarker), clock, before, said);
          said := said + [MarkerLine(level, HierarchyMarker)];
          break;
        }
      }
      ReachIs(g, view, HierarchyCap + 1, level);
      assert said == header + HierarchyLines(g, view);
    }
  }
}
