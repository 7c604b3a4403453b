# ExampleResponderChain in Dafny

ExampleResponderChain is an iOS demo of two UIKit mechanisms. Each has a view
that narrates what happens in a timestamped on-screen log.

- **HitTestDemoView** overrides `hitTest(_:with:)` and `point(inside:with:)`
  to log around UIKit's own answers. It hosts two views with their own hit-test
  policies:
  - a `TransparentView` refuses every point;
  - an `OverlappingView` captures every point inside its bounds.

  A tap logs the point and runs `performHitTest`. That logs which of the
  demo's areas was hit. Half a second later it logs the hit view's `superview`
  hierarchy, capped at level 5.
- **ResponderChainDemoView** has three buttons. Each button logs two lines at
  once and schedules more with `DispatchQueue.main.asyncAfter`:
  - button 1 narrates an event climbing the chain;
  - button 2 narrates an interception;
  - button 3 names the `next` responder and then lists the whole responder
    chain, capped at level 10.

The model works on values that stand in for UIKit's objects:

- **Views and responders** are nodes of `Graphs.Graph`. It maps each node to
  its `superview` or `next` link and to the name `type(of:)` prints. A graph
  may be cyclic. The caps exist so that the walks end on any graph.
- **The log** is the `logMessages` field of each view class, a `seq<string>`.
  `addLogMessage` is `AddLogMessage`, which takes the timestamp itself and
  appends `[timestamp] message`. Every other operation that logs takes a
  `clock: nat -> string` standing for `DateFormatter`, and passes
  `AddLogMessage` the timestamp `clock(|logMessages|)`. So the entry at log
  position i is stamped `clock(i)`. Each operation's contract gives the new
  log as the old log plus
  `Stamped(clock, |old log|, messages)`. Here `messages` is a clock-free
  specification function of the inputs.
- **UIKit's own `hitTest` and `point(inside:)`** are the parameters `superHit`
  and `superInside`. While UIKit's `hitTest` runs it calls back into this view's
  `point(inside:)` override. The messages that override logs are the
  parameter `superMessages`. The parameter is deliberately left
  unconstrained: how often UIKit calls back, and with what answers, is
  UIKit's business, and the contracts hold whatever it logged.
- **A closure scheduled with `asyncAfter`** is a `MainQueue.Timer`: a delay in
  milliseconds and an `Action` (or the view whose hierarchy is shown). The main
  queue runs timers in `FiringOrder`, a stable sort by delay.
  `ResponderChain.Narration` is what a batch of them logs once fired.
- **The two capped walks** (`showViewHierarchy` and `logResponderChain`) have
  one closed-form specification, `ChainWalk.WalkLines`. Both class methods keep
  the source's `while` loop and are proved equal to it.

Both walks check the cap after stepping to the next node, even when that step
reached nil. So a chain of exactly cap + 1 nodes is complete, yet it still gets the
truncation marker. `ChainWalk.WalkMarksUntruncatedChain` proves this; the
model keeps the behaviour as written.

The two walks have caps 5 and 10. A walk whose chain reaches the cap emits one
line for every level from 0 through the cap, and then a marker line; there is
no separate truncation flag.
Neither walk assumes that the links are acyclic: only the cap makes a walk end
on a cycle. A walk always starts from a live object reference, which the model
states as the precondition `id in g.link`.

## Model

| member | source | states |
|---|---|---|
| EventLog.UnstampStamp | ExampleResponderChain/HitTestDemoView.swift:254-255 | a log entry `[ts] msg` can be split back into its timestamp and message whenever the timestamp holds no `]` |
| EventLog.StampUnstamp | ExampleResponderChain/HitTestDemoView.swift:255 | every entry that splits is exactly the `[ts] msg` entry of its parts |
| EventLog.StampedAt | ExampleResponderChain/ResponderChainDemoView.swift:179-182 | in a run of addLogMessage calls starting at log position s, entry k is message k stamped with the clock at position s + k |
| EventLog.StampedAppend | ExampleResponderChain/ResponderChainDemoView.swift:214-216 | logging a then b gives the entries of a followed by the entries of b, stamped from the position where a ended |
| EventLog.UnstampStamped | ExampleResponderChain/ResponderChainDemoView.swift:180-182 | each entry in a run splits back into its own clock reading and its own message |
| EventLog.Stamp | ExampleResponderChain/HitTestDemoView.swift:255 | the entry addLogMessage builds, `[` timestamp `] ` message; ResponderChainDemoView.swift:181 builds the same entry |
| EventLog.Stamped | ExampleResponderChain/ResponderChainDemoView.swift:214-216 | the entries of a run of addLogMessage calls: one per message, the first at a given log position |
| Text.ParseNatOfNatToString | ExampleResponderChain/HitTestDemoView.swift:239 | the decimal text interpolated for a level reads back as that level |
| Text.ParseIntOfIntToString | ExampleResponderChain/HitTestDemoView.swift:192 | the text interpolated for a coordinate, with its sign, reads back as that coordinate |
| Text.NatToString | ExampleResponderChain/HitTestDemoView.swift:239 | the `\(level)` interpolation: a non-empty run of digits with no leading zero |
| Text.IntToString | ExampleResponderChain/HitTestDemoView.swift:192 | the `\(Int(location.x))` interpolation: a minus sign before the digits of a negative value |
| Text.Indent | ExampleResponderChain/HitTestDemoView.swift:238 | the indent of level k is exactly 2k spaces |
| Graphs.Ancestor | ExampleResponderChain/ResponderChainDemoView.swift:204 | the k-th link from a node, when there is one, is a node of the graph with a name |
| Graphs.AncestorNoneStays | ExampleResponderChain/ResponderChainDemoView.swift:199 | once the chain has reached nil, every later step is nil too |
| Graphs.AncestorsBelow | ExampleResponderChain/HitTestDemoView.swift:237-243 | when the j-th ancestor exists, every ancestor before it exists |
| Graphs.Reach | ExampleResponderChain/ResponderChainDemoView.swift:199-211 | the number of nodes visited under a bound: at most the bound, all of them exist, and if fewer than the bound then the next step is nil |
| Graphs.ReachIs | ExampleResponderChain/ResponderChainDemoView.swift:199-211 | any count with Reach's three properties is Reach, so the count is determined |
| Graphs.SelfLinkEndless | ExampleResponderChain/ResponderChainDemoView.swift:207 | a node that links to itself is its own ancestor at every depth, which is the endless chain the cap guards against |
| Graphs.ChainLength | ExampleResponderChain/ResponderChainDemoView.swift:199-204 | the chain from a node holds exactly n nodes: n links that exist, then nil |
| ChainWalk.ParseLevelLineOfLevelLine | ExampleResponderChain/HitTestDemoView.swift:238-239 | a level line (2k spaces, `k. `, name) reads back as its level and name |
| ChainWalk.LevelLine | ExampleResponderChain/HitTestDemoView.swift:238-239 | the line for one node, `\(indent)\(level). \(type)`; ResponderChainDemoView.swift:200-201 builds the same line |
| ChainWalk.MarkerLine | ExampleResponderChain/HitTestDemoView.swift:246 | the truncation line, the indent of its level followed by the marker; ResponderChainDemoView.swift:209 builds the same line |
| ChainWalk.WalkLines | ExampleResponderChain/ResponderChainDemoView.swift:199-212 | the closed form of both capped walks: level lines for the nodes reached within the cap, then the marker when the walk got past the cap |
| ChainWalk.MarkerLineIsNotLevelLine | ExampleResponderChain/HitTestDemoView.swift:246 | a marker line whose marker starts with neither a space nor a digit never reads as a level line; HierarchyMarkerIsNotLevelLine and ChainMarkerIsNotLevelLine apply it to the two real markers |
| ChainWalk.LevelLinesNext | ExampleResponderChain/ResponderChainDemoView.swift:200-202 | one more step of the walk appends exactly the level line of the next ancestor |
| ChainWalk.WalkShortChain | ExampleResponderChain/ResponderChainDemoView.swift:199-212 | a chain of n ≤ cap nodes gives exactly n lines, with line k naming the k-th ancestor at level k, and no marker |
| ChainWalk.WalkLongChain | ExampleResponderChain/ResponderChainDemoView.swift:199-212 | when the cap-th ancestor exists, the walk gives cap + 1 level lines (levels 0..cap) and then the marker indented cap + 1 levels |
| ChainWalk.WalkMarksUntruncatedChain | ExampleResponderChain/ResponderChainDemoView.swift:205-211 | a chain of exactly cap + 1 nodes ends at nil and still gets the truncation marker |
| ChainWalk.WalkBounded | ExampleResponderChain/ResponderChainDemoView.swift:207-211 | on any graph, even a cyclic one, the walk produces between 1 and cap + 2 lines |
| ChainWalk.WalkSelfLink | ExampleResponderChain/ResponderChainDemoView.swift:207-211 | a self-linked node gives cap + 1 lines naming itself and then the marker |
| MainQueue.WithDelayAppend | ExampleResponderChain/ResponderChainDemoView.swift:127-145 | the timers of one delay in a + b are those of a followed by those of b |
| MainQueue.FiringOrder | ExampleResponderChain/ResponderChainDemoView.swift:127-145 | the model of the main queue itself, not of a source line: scheduled closures, stably sorted by delay, which is the order they run in |
| MainQueue.InsertTimer | ExampleResponderChain/ResponderChainDemoView.swift:127-145 | the main queue model's step: a new timer is placed after every queued timer whose delay is not larger |
| MainQueue.InsertTimerBounded | ExampleResponderChain/ResponderChainDemoView.swift:127-145 | queueing a timer keeps every delay within a bound |
| MainQueue.InsertTimerSorted | ExampleResponderChain/ResponderChainDemoView.swift:127-145 | queueing a timer into a queue ordered by delay keeps it ordered |
| MainQueue.InsertTimerPermutes | ExampleResponderChain/ResponderChainDemoView.swift:127-145 | queueing a timer adds exactly that timer |
| MainQueue.InsertTimerStable | ExampleResponderChain/ResponderChainDemoView.swift:127-145 | a new timer fires after every queued timer with the same delay |
| MainQueue.FiringOrderSorted | ExampleResponderChain/ResponderChainDemoView.swift:127-145 | closures fire in non-decreasing order of delay |
| MainQueue.FiringOrderPermutes | ExampleResponderChain/ResponderChainDemoView.swift:127-145 | every scheduled closure fires exactly once |
| MainQueue.FiringOrderStable | ExampleResponderChain/ResponderChainDemoView.swift:127-145 | closures with equal delays fire in the order they were scheduled |
| MainQueue.FiringOrderOfSorted | ExampleResponderChain/ResponderChainDemoView.swift:127-145 | closures scheduled in order of delay fire in the order they were scheduled |
| HitTestDemo.TransparentRefusesEveryPoint | ExampleResponderChain/HitTestDemoView.swift:292-302 | TransparentView's point(inside:) is false and its hitTest is nil for every point, whatever UIKit would answer |
| HitTestDemo.Contains | ExampleResponderChain/HitTestDemoView.swift:310 | `bounds.contains(point)` on integer rectangles: the minimum edges belong to the rectangle, the maximum edges do not |
| HitTestDemo.PolicyPointInside | ExampleResponderChain/HitTestDemoView.swift:284-297 | the point(inside:) answer of each view class: TransparentView's is false, the others' are UIKit's |
| HitTestDemo.PolicyHitTest | ExampleResponderChain/HitTestDemoView.swift:292-317 | the hitTest answer of each view class: the inherited one passes UIKit's through, TransparentView's is nil, OverlappingView's is itself inside its bounds and UIKit's outside |
| HitTestDemo.OverlappingCapturesInside | ExampleResponderChain/HitTestDemoView.swift:308-313 | for a point inside its bounds OverlappingView returns itself, and the answer does not depend on what the subviews would say |
| HitTestDemo.OverlappingDefersOutside | ExampleResponderChain/HitTestDemoView.swift:315-316 | for a point outside its bounds OverlappingView returns exactly UIKit's own answer |
| HitTestDemo.InheritedForwards | ExampleResponderChain/HitTestDemoView.swift:269-288 | HitTestDemoView's overrides return UIKit's own answers unchanged |
| HitTestDemo.PolicyHitSound | ExampleResponderChain/HitTestDemoView.swift:292-317 | no policy invents a view: the answer is UIKit's, nil, or the overlapping view itself for a point in its bounds, and it differs from UIKit's only in those two cases |
| HitTestDemo.AreaOfDistinct | ExampleResponderChain/HitTestDemoView.swift:206-220 | with distinct subviews each area is reported exactly for its own view, and "unknown" exactly for any other |
| HitTestDemo.AreaOf | ExampleResponderChain/HitTestDemoView.swift:206-220 | which of performHitTest's comparisons holds first, in the order hitTestArea, transparentView, overlappingView, self, other |
| HitTestDemo.AreaMessages | ExampleResponderChain/HitTestDemoView.swift:206-220 | the lines performHitTest logs for each area: two for a known view, one for an unknown one |
| HitTestDemo.HitReport | ExampleResponderChain/HitTestDemoView.swift:202-227 | what performHitTest logs after hitTest answers: the ❌ line, or the 🎯 type line and the area lines |
| HitTestDemo.TapMessage | ExampleResponderChain/HitTestDemoView.swift:192 | the tap line with the point's integer coordinates |
| HitTestDemo.HitTypeMessage | ExampleResponderChain/HitTestDemoView.swift:203 | the 🎯 line naming the hit view's type |
| HitTestDemo.HitTestCalledMessage | ExampleResponderChain/HitTestDemoView.swift:270 | the line the hitTest override logs before asking UIKit |
| HitTestDemo.HitTestResultMessage | ExampleResponderChain/HitTestDemoView.swift:275-279 | the line the hitTest override logs after UIKit answers: the view's type, or nil |
| HitTestDemo.PointInsideMessage | ExampleResponderChain/HitTestDemoView.swift:286 | the внутри/снаружи line of the point(inside:) override |
| HitTestDemo.HierarchyHeader | ExampleResponderChain/HitTestDemoView.swift:232 | the header line of showViewHierarchy |
| HitTestDemo.HitTestMessages | ExampleResponderChain/HitTestDemoView.swift:270-279 | everything the hitTest override logs, in order: the call line, the lines UIKit's traversal causes, the result line |
| HitTestDemo.PerformHitTestMessages | ExampleResponderChain/HitTestDemoView.swift:199-227 | everything performHitTest logs, in order: the running line, the hitTest override's lines, the report |
| HitTestDemo.HierarchyTimers | ExampleResponderChain/HitTestDemoView.swift:222-226 | a hierarchy walk is scheduled exactly when hitTest found a view: one timer at 500 ms for that view |
| HitTestDemo.HitReportShape | ExampleResponderChain/HitTestDemoView.swift:202-227 | a nil hit reports one "❌" line; a hit reports its type line and then the lines of its first matching area (two, or one for an unknown view) |
| HitTestDemo.PerformHitTestNil | ExampleResponderChain/HitTestDemoView.swift:198-228 | on a nil hit: the running line, the hitTest lines ending in the nil result, the "❌" line, and nothing more |
| HitTestDemo.PerformHitTestFound | ExampleResponderChain/HitTestDemoView.swift:198-228 | on a hit: the running line, the hitTest lines ending in the view's name, the type line, then the lines of its area |
| HitTestDemo.HierarchyShortChain | ExampleResponderChain/HitTestDemoView.swift:237-248 | a superview chain of n ≤ 5 views gives n level lines, line k naming the k-th superview, and no marker |
| HitTestDemo.HierarchyLongChain | ExampleResponderChain/HitTestDemoView.swift:237-248 | a chain of 6 or more views gives levels 0..5 and then the marker indented 6 levels |
| HitTestDemo.HierarchyBounded | ExampleResponderChain/HitTestDemoView.swift:237-249 | showViewHierarchy appends between 2 and 1 + 6 + 1 entries on any superview map |
| HitTestDemo.HierarchyLines | ExampleResponderChain/HitTestDemoView.swift:237-248 | the level and marker lines of showViewHierarchy: the capped walk with cap 5 |
| HitTestDemo.HierarchyMarkerIsNotLevelLine | ExampleResponderChain/HitTestDemoView.swift:246 | showViewHierarchy's truncation line, at any level, never reads as a level line |
| HitTestDemo.HitTestDemoView.constructor | ExampleResponderChain/HitTestDemoView.swift:85-86 | the log starts with the two initial messages, stamped at positions 0 and 1 |
| HitTestDemo.HitTestDemoView.AddLogMessage | ExampleResponderChain/HitTestDemoView.swift:253-256 | the log grows by one entry, `[ts] message`, and earlier entries are unchanged |
| HitTestDemo.HitTestDemoView.PointInside | ExampleResponderChain/HitTestDemoView.swift:284-288 | returns UIKit's answer unchanged and appends one inside/outside line |
| HitTestDemo.HitTestDemoView.HitTest | ExampleResponderChain/HitTestDemoView.swift:269-282 | returns UIKit's answer unchanged; logs the "called" line, then what UIKit's traversal logged, then the result line |
| HitTestDemo.HitTestDemoView.PerformHitTest | ExampleResponderChain/HitTestDemoView.swift:198-228 | appends exactly the specified report (see PerformHitTestNil and PerformHitTestFound) and schedules the hierarchy walk only on a hit |
| HitTestDemo.HitTestDemoView.ReportHit | ExampleResponderChain/HitTestDemoView.swift:202-227 | appends the hit report: nil line, or type line plus area lines |
| HitTestDemo.HitTestDemoView.ReportArea | ExampleResponderChain/HitTestDemoView.swift:205-220 | appends the lines of the first comparison that matches, in the order hitTestArea, transparentView, overlappingView, self, other |
| HitTestDemo.HitTestDemoView.HandleTap | ExampleResponderChain/HitTestDemoView.swift:190-196 | logs the tapped point, then everything performHitTest logs, and schedules what it schedules |
| HitTestDemo.HitTestDemoView.ShowViewHierarchy | ExampleResponderChain/HitTestDemoView.swift:231-250 | the loop appends the header and then exactly the capped walk lines of the view's superview chain |
| ResponderChain.ResponderShortChain | ExampleResponderChain/ResponderChainDemoView.swift:199-211 | a chain of n ≤ 10 responders gives n lines, entry k naming the k-th `next` at level k, and no marker |
| ResponderChain.ResponderLongChain | ExampleResponderChain/ResponderChainDemoView.swift:199-211 | a chain of 11 or more gives levels 0..10 and then the marker indented 11 levels |
| ResponderChain.ResponderChainBounded | ExampleResponderChain/ResponderChainDemoView.swift:207-211 | on any `next` map, even a cyclic one, the chain holds between 1 and 12 entries |
| ResponderChain.ResponderSelfLoop | ExampleResponderChain/ResponderChainDemoView.swift:207-211 | a responder that is its own `next` fills the 11 levels with its own name and gets the marker |
| ResponderChain.ResponderChainLines | ExampleResponderChain/ResponderChainDemoView.swift:195-212 | the lines logResponderChain collects in `chain`: the capped walk with cap 10 |
| ResponderChain.ChainMarkerIsNotLevelLine | ExampleResponderChain/ResponderChainDemoView.swift:209 | logResponderChain's truncation line, at any level, never reads as a level line |
| ResponderChain.NextResponderMessage | ExampleResponderChain/ResponderChainDemoView.swift:165-169 | button 3's first closure line: the next responder's type, or «не найден» |
| ResponderChain.NextResponderAgrees | ExampleResponderChain/ResponderChainDemoView.swift:164-170 | button 3 names the next responder exactly when there is one; when there is none it says "не найден"; the name agrees with line 1 of the chain listing |
| ResponderChain.FiredAppend | ExampleResponderChain/ResponderChainDemoView.swift:127-145 | closures fired one batch after another log one batch's messages after the other's |
| ResponderChain.FiredSingle | ExampleResponderChain/ResponderChainDemoView.swift:153-156 | one fired closure logs exactly its own messages |
| ResponderChain.ActionMessages | ExampleResponderChain/ResponderChainDemoView.swift:127-175 | what one scheduled closure logs: one line for button 1's, two for button 2's, the next-responder line, or the chain header and the chain |
| ResponderChain.Fired | ExampleResponderChain/ResponderChainDemoView.swift:127-175 | what closures log when they run one after another in a given order |
| ResponderChain.Narration | ExampleResponderChain/ResponderChainDemoView.swift:127-175 | what a batch of scheduled closures logs once the main queue has run them in its firing order |
| ResponderChain.Button1Delays | ExampleResponderChain/ResponderChainDemoView.swift:127-143 | button 1 schedules five closures with delays 0.5, 1.0, 1.5, 2.0 and 2.5 s, strictly increasing |
| ResponderChain.Button1Narration | ExampleResponderChain/ResponderChainDemoView.swift:127-145 | button 1's closures log view, controller, window, application and "handled", in that order |
| ResponderChain.Button2Narration | ExampleResponderChain/ResponderChainDemoView.swift:153-156 | button 2's closure logs the "intercepted" line and then the "not passed on" line |
| ResponderChain.Button3Narration | ExampleResponderChain/ResponderChainDemoView.swift:164-175 | button 3's closures log the next-responder line, then the chain header, then the whole capped chain |
| ResponderChain.FiredReportThenList | ExampleResponderChain/ResponderChainDemoView.swift:164-175 | a next-responder closure run before a chain-listing closure logs the next-responder line, the chain header, then the whole capped chain |
| ResponderChain.ResponderChainDemoView.constructor | ExampleResponderChain/ResponderChainDemoView.swift:69 | the log starts with the one initial message, stamped at position 0 |
| ResponderChain.ResponderChainDemoView.AddLogMessage | ExampleResponderChain/ResponderChainDemoView.swift:179-182 | the log grows by one entry, `[ts] message`, and earlier entries are unchanged |
| ResponderChain.ResponderChainDemoView.Button1Tapped | ExampleResponderChain/ResponderChainDemoView.swift:122-146 | logs its two immediate lines and returns the five closures it schedules |
| ResponderChain.ResponderChainDemoView.Button2Tapped | ExampleResponderChain/ResponderChainDemoView.swift:148-157 | logs its two immediate lines and returns the one closure it schedules |
| ResponderChain.ResponderChainDemoView.Button3Tapped | ExampleResponderChain/ResponderChainDemoView.swift:159-176 | logs its two immediate lines and returns the two closures it schedules |
| ResponderChain.ResponderChainDemoView.RunAction | ExampleResponderChain/ResponderChainDemoView.swift:127-175 | running one scheduled closure appends exactly the messages its Action specifies |
| ResponderChain.ResponderChainDemoView.LogResponderChain | ExampleResponderChain/ResponderChainDemoView.swift:194-217 | the log grows by exactly the collected chain, appended in order after the walk |
| ResponderChain.ResponderChainDemoView.CollectChain | ExampleResponderChain/ResponderChainDemoView.swift:195-212 | the while loop collects exactly the capped walk lines of the `next` chain |

## Left out

- The text view refresh and scrolling that `addLogMessage` schedules with `DispatchQueue.main.async`. It touches only the on-screen text, never `logMessages`.
- Real-time dispatch of `asyncAfter`. Closures are data (`MainQueue.Timer`), and the model does not interleave the log entries of closures from several taps in flight. `RunAction` is what one closure does when the main queue runs it.
- `DateFormatter`. It is the `clock` parameter, read once per appended entry.
- `type(of:)` reflection. It is the graph's `name` map.
- UIKit's hit-testing algorithm and `CGRect.contains` on `CGFloat`. The answers are parameters, and bounds are integer rectangles.
- `Int(location.x)`, which truncates `CGFloat` coordinates. Points are already integers.
- All of `setupUI`, `setupConstraints`, `addLabelsToAreas`, `setupGestures` and `setupActions`, apart from the initial log messages. They are widget construction and layout.
- `CustomButton`. It has animation only.
- When UIKit itself runs HitTestDemoView's `hitTest` and `point(inside:)` overrides while delivering a touch. That happens before the tap recognizer fires, so in the app those log lines come before the `👆 Нажатие в точке` line. The model has no member that orders those calls against the tap; `HitTest` models only the call that performHitTest makes.
- The `touchesBegan` and `touchesEnded` overrides of ResponderChainDemoView. Each logs `👆 touchesBegan вызван в ResponderChainDemoView` (or `touchesEnded`) and then forwards the touches to UIKit. The model has no member for them, because when UIKit delivers touches to this view is outside the model.
- ViewController.swift is not part of this model. It is scroll view and layout only.
- EventLog.UnstampStamp requires a timestamp without `]`. The medium time style of `DateFormatter` in any locale is assumed to produce none.
