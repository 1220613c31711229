// Pointer picking on the truck and box pages: pointer position to normalised device
// coordinates, the clickable-mesh list built while the truck model loads, first-match
// navigation on click, the hover cursor classes, and the box page's spinning cube.

module Picking {
  import opened Common

  /** The name every clickable truck mesh is given when the model loads. */
  const TruckButton: string := "truckButton"
  /** The name of the box page's cube. */
  const RedCube: string := "redCube"
  const BoxPage: string := "box.html"
  const TruckPage: string := "truck.html"

  const GunCursor: string := "gun-cursor"
  const DefaultCursor: string := "default-cursor"

  // ---------------------------------------------------------------------
  // Normalised device coordinates
  // ---------------------------------------------------------------------

  /** The client position scaled to [-1, 1] across the window, with y flipped to point up. */
  function Normalized(client: Point, width: real, height: real): Point
    requires width > 0.0 && height > 0.0
  {
    Point((client.x / width) * 2.0 - 1.0, -(client.y / height) * 2.0 + 1.0)
  }

  /** The pixel a normalised coordinate came from. */
  function Pixel(ndc: Point, width: real, height: real): Point
  {
    Point((ndc.x + 1.0) / 2.0 * width, (1.0 - ndc.y) / 2.0 * height)
  }

  /** Normalising loses nothing: the pixel can be recovered from the coordinate. */
  lemma NormalizedRoundTrip(client: Point, width: real, height: real)
    requires width > 0.0 && height > 0.0
    ensures Pixel(Normalized(client, width, height), width, height) == client
  {
    var n := Normalized(client, width, height);
    assert (n.x + 1.0) / 2.0 == client.x / width;
    assert (1.0 - n.y) / 2.0 == client.y / height;
  }

  /**
   * A pointer inside the window lands in [-1, 1] on both axes; the left and top edges
   * map to -1 and +1, the right and bottom edges to +1 and -1 (screen y points down).
   */
  lemma NormalizedInWindow(client: Point, width: real, height: real)
    requires width > 0.0 && height > 0.0
    requires 0.0 <= client.x <= width && 0.0 <= client.y <= height
    ensures -1.0 <= Normalized(client, width, height).x <= 1.0
    ensures -1.0 <= Normalized(client, width, height).y <= 1.0
    ensures client.x == 0.0 ==> Normalized(client, width, height).x == -1.0
    ensures client.x == width ==> Normalized(client, width, height).x == 1.0
    ensures client.y == 0.0 ==> Normalized(client, width, height).y == 1.0
    ensures client.y == height ==> Normalized(client, width, height).y == -1.0
  {
    Fraction(client.x, width);
    Fraction(client.y, height);
    SelfQuotient(width);
    SelfQuotient(height);
  }

  lemma SelfQuotient(w: real)
    requires w > 0.0
    ensures w / w == 1.0
  {
  }

  lemma Fraction(v: real, w: real)
    requires w > 0.0 && 0.0 <= v <= w
    ensures 0.0 <= v / w <= 1.0
  {
  }

  /** Moving right raises x; moving down lowers y. */
  lemma NormalizedMonotone(a: Point, b: Point, width: real, height: real)
    requires width > 0.0 && height > 0.0
    ensures a.x < b.x ==> Normalized(a, width, height).x < Normalized(b, width, height).x
    ensures a.y < b.y ==> Normalized(a, width, height).y > Normalized(b, width, height).y
  {
    if a.x < b.x {
      assert (b.x / width - a.x / width) * width == b.x - a.x;
    }
    if a.y < b.y {
      assert (b.y / height - a.y / height) * height == b.y - a.y;
    }
  }

  // ---------------------------------------------------------------------
  // Hits: the names of the intersected objects, nearest first
  // ---------------------------------------------------------------------

  /** Whether any intersected object carries the name `target`. */
  function AnyHitNamed(hits: seq<string>, target: string): (r: bool)
    ensures r <==> exists k :: 0 <= k < |hits| && hits[k] == target
  {
    if hits == [] then false
    else hits[0] == target || AnyHitNamed(hits[1..], target)
  }

  /**
   * The `click` handler: walk the hits nearest first and navigate to `destination` on the
   * first one named `target`, returning at once. `examined` is how many hits were looked at.
   */
  method ClickScan(hits: seq<string>, target: string, destination: string)
    returns (navigate: Option<string>, examined: nat)
    ensures navigate.Some? <==> AnyHitNamed(hits, target)
    ensures navigate.Some? ==> navigate.value == destination
    ensures examined <= |hits|
    ensures navigate.Some? ==> 0 < examined && hits[examined - 1] == target
    ensures navigate.None? ==> examined == |hits|
    ensures forall k :: 0 <= k < examined - 1 ==> hits[k] != target
  {
    var i := 0;
    while i < |hits|
      invariant 0 <= i <= |hits|
      invariant forall k :: 0 <= k < i ==> hits[k] != target
    {
      if hits[i] == target {
        return Some(destination), i + 1;
      }
      i := i + 1;
    }
    return None, i;
  }

  /** The truck page sends a click on the truck to the box page. */
  method TruckClick(hits: seq<string>) returns (navigate: Option<string>)
    ensures navigate == if AnyHitNamed(hits, TruckButton) then Some(BoxPage) else None
  {
    var examined;
    navigate, examined := ClickScan(hits, TruckButton, BoxPage);
  }

  /** The box page sends a click on the red cube to the truck page. */
  method BoxClick(hits: seq<string>) returns (navigate: Option<string>)
    ensures navigate == if AnyHitNamed(hits, RedCube) then Some(TruckPage) else None
  {
    var examined;
    navigate, examined := ClickScan(hits, RedCube, TruckPage);
  }

  // ---------------------------------------------------------------------
  // Hover cursor
  // ---------------------------------------------------------------------

  /** `classList.toggle(name, force)`: add the class when `force` holds, remove it otherwise. */
  function Toggle(classes: set<string>, name: string, force: bool): set<string>
  {
    if force then classes + {name} else classes - {name}
  }

  /** The body's classes after a `mousemove` whose hover flag is `hovering`. */
  function Hovered(classes: set<string>, hovering: bool): set<string>
  {
    Toggle(Toggle(classes, GunCursor, hovering), DefaultCursor, !hovering)
  }

  /** Exactly one cursor class is on after any `mousemove`, and no other class is touched. */
  lemma HoveredCursor(classes: set<string>, hovering: bool)
    ensures GunCursor in Hovered(classes, hovering) <==> hovering
    ensures DefaultCursor in Hovered(classes, hovering) <==> !hovering
    ensures forall c :: c != GunCursor && c != DefaultCursor ==> (c in Hovered(classes, hovering) <==> c in classes)
  {
  }

  /** Hovering twice in the same spot changes nothing more; the last move alone decides. */
  lemma HoveredLastWins(classes: set<string>, first: bool, second: bool)
    ensures Hovered(Hovered(classes, first), second) == Hovered(classes, second)
  {
  }

  /** The class list of `document.body`. */
  class Body {
    var classes: set<string>

    constructor (initial: set<string>)
      ensures classes == initial
    {
      classes := initial;
    }

    /** The `mousemove` handler over the hits under the pointer. */
    method Hover(hits: seq<string>, target: string)
      modifies this
      ensures classes == Hovered(old(classes), AnyHitNamed(hits, target))
    {
      var hovering := AnyHitNamed(hits, target);
      classes := Toggle(classes, GunCursor, hovering);
      classes := Toggle(classes, DefaultCursor, !hovering);
    }
  }

  // ---------------------------------------------------------------------
  // Clickable meshes
  // ---------------------------------------------------------------------

  /** A node met by `model.traverse`, in traversal order. */
  datatype SceneNode = SceneNode(name: string, isMesh: bool)

  /** A mesh whose lower-cased name contains "truck". */
  predicate IsTruckPart(n: SceneNode)
  {
    n.isMesh && Contains(Lower(n.name), "truck")
  }

  function Renamed(n: SceneNode): SceneNode
  {
    if IsTruckPart(n) then n.(name := TruckButton) else n
  }

  predicate StrictlyIncreasing(s: seq<nat>)
  {
    forall i, j :: 0 <= i < j < |s| ==> s[i] < s[j]
  }

  /**
   * The traversal callback over every node: rename each truck mesh to "truckButton" and push it
   * onto the clickable list. `clickable` holds positions into `nodes`, in the order pushed.
   */
  method CollectClickable(nodes: seq<SceneNode>) returns (renamed: seq<SceneNode>, clickable: seq<nat>)
    ensures |renamed| == |nodes|
    ensures forall i :: 0 <= i < |nodes| ==> renamed[i] == Renamed(nodes[i])
    ensures StrictlyIncreasing(clickable)
    ensures forall k :: 0 <= k < |clickable| ==> clickable[k] < |nodes| && IsTruckPart(nodes[clickable[k]])
    ensures forall i :: 0 <= i < |nodes| && IsTruckPart(nodes[i]) ==> i in clickable
    ensures forall k :: 0 <= k < |clickable| ==> renamed[clickable[k]] == SceneNode(TruckButton, true)
  {
    renamed, clickable := [], [];
    var i := 0;
    while i < |nodes|
      invariant 0 <= i <= |nodes|
      invariant |renamed| == i
      invariant forall j :: 0 <= j < i ==> renamed[j] == Renamed(nodes[j])
      invariant StrictlyIncreasing(clickable)
      invariant forall k :: 0 <= k < |clickable| ==> clickable[k] < i && IsTruckPart(nodes[clickable[k]])
      invariant forall j :: 0 <= j < i && IsTruckPart(nodes[j]) ==> j in clickable
    {
      var child := nodes[i];
      if child.isMesh {
        if Contains(Lower(child.name), "truck") {
          child := child.(name := TruckButton);
          clickable := clickable + [i];
        }
      }
      renamed := renamed + [child];
      i := i + 1;
    }
  }

  /**
   * The raycaster tests only the clickable meshes, all renamed: whenever every hit is one of
   * them, the pointer is over the truck exactly when something was hit at all.
   */
  lemma HoverOnClickable(hits: seq<string>, renamed: seq<SceneNode>, clickable: seq<nat>)
    requires forall k :: 0 <= k < |clickable| ==> clickable[k] < |renamed| && renamed[clickable[k]] == SceneNode(TruckButton, true)
    requires forall h :: 0 <= h < |hits| ==> exists k :: 0 <= k < |clickable| && hits[h] == renamed[clickable[k]].name
    ensures AnyHitNamed(hits, TruckButton) <==> hits != []
  {
    if hits != [] {
      var k :| 0 <= k < |clickable| && hits[0] == renamed[clickable[k]].name;
      assert hits[0] == TruckButton;
    }
  }

  // ---------------------------------------------------------------------
  // The spinning cube
  // ---------------------------------------------------------------------

  const SpinPerFrame: real := 0.01

  /** The cube's yaw after `frames` animation frames, each adding `SpinPerFrame`. */
  function Spun(start: real, frames: nat): real
  {
    if frames == 0 then start else Spun(start, frames - 1) + SpinPerFrame
  }

  /** The yaw grows linearly with the number of frames and is never wrapped. */
  lemma {:induction false} SpunLinear(start: real, frames: nat)
    ensures Spun(start, frames) == start + frames as real * SpinPerFrame
  {
    if frames > 0 {
      SpunLinear(start, frames - 1);
    }
  }

  /** The box page's cube, whose yaw the animation loop advances. */
  class Cube {
    var rotationY: real

    constructor ()
      ensures rotationY == 0.0
    {
      rotationY := 0.0;
    }

    /** One `animate` frame. */
    method Frame()
      modifies this
      ensures rotationY == old(rotationY) + SpinPerFrame
    {
      rotationY := rotationY + SpinPerFrame;
    }

    /** `frames` animation frames in a row. */
    method Frames(frames: nat)
      modifies this
      ensures rotationY == Spun(old(rotationY), frames)
    {
      var i := 0;
      while i < frames
        invariant 0 <= i <= frames
        invariant rotationY == Spun(old(rotationY), i)
      {
        Frame();
        i := i + 1;
      }
    }
  }
}
