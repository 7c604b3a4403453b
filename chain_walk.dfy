/**
 * What the two capped chain walks print (`showViewHierarchy` over
 * `superview`, `logResponderChain` over `next`). The walk emits, for the
 * node at depth `level`, the line `Indent(level) + "\(level). " + name`;
 * after emitting a line it follows the link, counts the level up, and when
 * the level exceeds `cap` it emits a marker indented by the new level and
 * stops. The cap check runs after the link is followed, whether or not the
 * link was nil, so a chain of exactly cap + 1 nodes still gets the marker.
 *
 * WalkLines states the output in closed form, from the number of chain
 * nodes; the demo views' loops are proved to produce exactly it.
 */
module ChainWalk {
  import opened Wrappers
  import opened Text
  import opened Graphs

  function LevelLine(level: nat, name: string): string {
    Indent(level) + NatToString(level) + ". " + name
  }

  function MarkerLine(level: nat, marker: string): string {
    Indent(level) + marker
  }

  /** Reads a level line back: its indentation must be twice the number it shows. */
  function ParseLevelLine(line: string): Option<(nat, string)> {
    var spaces := Span(line, 0, IsSpace);
    var digits := Span(line, spaces, IsDigit);
    if spaces % 2 == 0 && spaces < digits && digits + 1 < |line|
       && line[digits] == '.' && line[digits + 1] == ' '
       && ParseNat(line[spaces..digits]) == spaces / 2
    then Some((spaces / 2, line[digits + 2..]))
    else None
  }

  lemma ParseLevelLineOfLevelLine(level: nat, name: string)
    ensures ParseLevelLine(LevelLine(level, name)) == Some((level, name))
  {
    var d := NatToString(level);
    var line := LevelLine(level, name);
    var sp := 2 * level;
    assert forall j :: 0 <= j < sp ==> line[j] == Indent(level)[j];
    assert forall j :: sp <= j < sp + |d| ==> line[j] == d[j - sp];
    assert line[sp + |d|] == '.' && line[sp + |d| + 1] == ' ';
    SpanIs(line, 0, IsSpace, sp);
    SpanIs(line, sp, IsDigit, sp + |d|);
    assert line[sp..sp + |d|] == d;
    ParseNatOfNatToString(level);
    assert line[sp + |d| + 2..] == name;
  }

  /** A marker that starts with neither a space nor a digit never reads as a level line. */
  lemma MarkerLineIsNotLevelLine(level: nat, marker: string)
    requires 1 <= |marker| && !IsSpace(marker[0]) && !IsDigit(marker[0])
    ensures ParseLevelLine(MarkerLine(level, marker)).None?
  {
    var line := MarkerLine(level, marker);
    var sp := 2 * level;
    assert forall j :: 0 <= j < sp ==> line[j] == Indent(level)[j];
    assert line[sp] == marker[0];
    SpanIs(line, 0, IsSpace, sp);
    SpanIs(line, sp, IsDigit, sp);
  }

  /** The lines for the first `count` nodes of the chain from `v`. */
  function LevelLines(g: Graph, v: Id, count: nat): seq<string>
    requires g.Valid() && v in g.link
    requires forall k :: 0 <= k < count ==> Ancestor(g, v, k).Some?
  {
    seq(count, k requires 0 <= k < count => LevelLine(k, g.name[Ancestor(g, v, k).value]))
  }

  lemma LevelLinesNext(g: Graph, v: Id, count: nat)
    requires g.Valid() && v in g.link
    requires forall k :: 0 <= k <= count ==> Ancestor(g, v, k).Some?
    ensures LevelLines(g, v, count + 1)
            == LevelLines(g, v, count) + [LevelLine(count, g.name[Ancestor(g, v, count).value])]
  {
  }

  /** All lines a walk with depth cap `cap` emits, starting at `v`. */
  function WalkLines(g: Graph, v: Id, cap: nat, marker: string): seq<string>
    requires g.Valid() && v in g.link
  {
    var n := Reach(g, v, cap + 1);
    LevelLines(g, v, n) + (if n == cap + 1 then [MarkerLine(cap + 1, marker)] else [])
  }

  /** A chain of n <= cap nodes: one line per node, in chain order, and no marker. */
  lemma WalkShortChain(g: Graph, v: Id, cap: nat, marker: string, n: nat)
    requires g.Valid() && v in g.link
    requires ChainLength(g, v, n) && n <= cap
    ensures var lines := WalkLines(g, v, cap, marker);
      |lines| == n &&
      forall k :: 0 <= k < n ==> lines[k] == LevelLine(k, g.name[Ancestor(g, v, k).value])
  {
    ReachIs(g, v, cap + 1, n);
  }

  /** A chain of at least cap + 1 nodes: lines for depths 0..cap, then the marker at depth cap + 1. */
  lemma WalkLongChain(g: Graph, v: Id, cap: nat, marker: string)
    requires g.Valid() && v in g.link
    requires Ancestor(g, v, cap).Some?
    ensures var lines := WalkLines(g, v, cap, marker);
      |lines| == cap + 2 &&
      (forall k :: 0 <= k <= cap ==> lines[k] == LevelLine(k, g.name[Ancestor(g, v, k).value])) &&
      lines[cap + 1] == MarkerLine(cap + 1, marker)
  {
    AncestorsBelow(g, v, cap);
    ReachIs(g, v, cap + 1, cap + 1);
  }

  /**
   * The off-by-one of the loop: a chain that ends exactly after cap + 1 nodes
   * has not been cut short, yet its last line is the truncation marker.
   */
  lemma WalkMarksUntruncatedChain(g: Graph, v: Id, cap: nat, marker: string)
    requires g.Valid() && v in g.link
    requires ChainLength(g, v, cap + 1)
    ensures var lines := WalkLines(g, v, cap, marker);
      |lines| == cap + 2 && lines[cap + 1] == MarkerLine(cap + 1, marker)
  {
    WalkLongChain(g, v, cap, marker);
  }

  /** Any link map, cyclic or not, gives at least one and at most cap + 2 lines. */
  lemma WalkBounded(g: Graph, v: Id, cap: nat, marker: string)
    requires g.Valid() && v in g.link
    ensures 1 <= |WalkLines(g, v, cap, marker)| <= cap + 2
  {
  }

  /** A self-linked node is printed cap + 1 times, then the marker. */
  lemma WalkSelfLink(g: Graph, v: Id, cap: nat, marker: string)
    requires g.Valid() && v in g.link && g.link[v] == Some(v)
    ensures var lines := WalkLines(g, v, cap, marker);
      |lines| == cap + 2 &&
      (forall k :: 0 <= k <= cap ==> lines[k] == LevelLine(k, g.name[v])) &&
      lines[cap + 1] == MarkerLine(cap + 1, marker)
  {
    forall k | 0 <= k <= cap + 1 ensures Ancestor(g, v, k) == Some(v) {
      SelfLinkEndless(g, v, k);
    }
    WalkLongChain(g, v, cap, marker);
  }
}
