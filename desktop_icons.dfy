/**
 * The desktop icons: their table, the default vertical stack they are laid
 * out in, the lookup by id used when an icon is double-clicked, and the
 * position shown for an icon that has none stored.
 */
module DesktopIcons {
  import opened Wrappers
  import opened Geometry

  /** A desktop shortcut: its id and the title its window shows. */
  datatype Icon = Icon(id: string, name: string)

  /** The icons, in display order. */
  const Icons: seq<Icon> := [
    Icon("cv", "Bekir's CV"),
    Icon("projects", "Projects"),
    Icon("about", "About me"),
    Icon("contact", "Contact")
  ]

  /** Icon positions by icon id. */
  type Layout = map<string, Point>

  const START_X: int := 24
  const START_Y: int := 24
  const SPACING_Y: int := 110

  /** Where an icon is drawn and dragged from when the layout has no entry for it. */
  const FALLBACK: Point := Point(24, 24)

  function DefaultPosition(i: nat): Point
  {
    Point(START_X, START_Y + i * SPACING_Y)
  }

  ghost function IconIds(): set<string>
  {
    set k | 0 <= k < |Icons| :: Icons[k].id
  }

  /** One entry per icon, icon i at its place in the default stack. */
  ghost predicate IsDefaultLayout(m: Layout)
  {
    && m.Keys == IconIds()
    && forall k :: 0 <= k < |Icons| ==> m[Icons[k].id] == DefaultPosition(k)
  }

  lemma IconIdsDistinct()
    ensures forall i, j :: 0 <= i < j < |Icons| ==> Icons[i].id != Icons[j].id
  {
  }

  /** Builds the default layout: the icons stacked down the left edge. */
  method GetDefaultIconPositions() returns (defaults: Layout)
    ensures IsDefaultLayout(defaults)
  {
    IconIdsDistinct();
    defaults := map[];
    for i := 0 to |Icons|
      invariant defaults.Keys == set k | 0 <= k < i :: Icons[k].id
      invariant forall k :: 0 <= k < i ==> defaults[Icons[k].id] == DefaultPosition(k)
    {
      defaults := defaults[Icons[i].id := Point(START_X, START_Y + i * SPACING_Y)];
    }
  }

  /**
   * The default layout has exactly one entry per icon, every icon in the
   * column x = 24, and each icon strictly below the one before it.
   */
  lemma DefaultLayoutShape(m: Layout)
    requires IsDefaultLayout(m)
    ensures |m| == |Icons|
    ensures forall k :: 0 <= k < |Icons| ==> m[Icons[k].id].x == START_X
    ensures forall i, j :: 0 <= i < j < |Icons| ==> m[Icons[i].id].y < m[Icons[j].id].y
  {
    assert IconIds() == {"cv", "projects", "about", "contact"} by {
      assert Icons[0].id == "cv" && Icons[1].id == "projects";
      assert Icons[2].id == "about" && Icons[3].id == "contact";
    }
    assert |m.Keys| == 4;
  }

  /** The position of an icon in a layout, or the fallback when it has none. */
  function PositionOr(positions: Layout, id: string): (p: Point)
    ensures id in positions ==> p == positions[id]
    ensures id !in positions ==> p == FALLBACK
  {
    if id in positions then positions[id] else FALLBACK
  }

  /** In the default layout, the fallback is never used. */
  lemma DefaultLayoutPositionOf(m: Layout, k: nat)
    requires IsDefaultLayout(m) && k < |Icons|
    ensures PositionOr(m, Icons[k].id) == DefaultPosition(k)
  {
  }

  /** The lookup of the icon table by id: the first icon with that id, if any. */
  function Find(icons: seq<Icon>, id: string): (r: Option<Icon>)
    ensures r.None? <==> forall i :: 0 <= i < |icons| ==> icons[i].id != id
    ensures r.Some? ==> exists i :: 0 <= i < |icons| && icons[i] == r.value && r.value.id == id
                               && forall j :: 0 <= j < i ==> icons[j].id != id
  {
    if icons == [] then None
    else if icons[0].id == id then Some(icons[0])
    else
      var r := Find(icons[1..], id);
      assert r.Some? ==> exists i :: 0 <= i < |icons[1..]| && icons[1..][i] == r.value && r.value.id == id
                                && forall j :: 0 <= j < i ==> icons[1..][j].id != id;
      r
  }

  /** Looking up the id of the k-th icon finds that icon, since ids are distinct. */
  lemma FindIconById(k: nat)
    requires k < |Icons|
    ensures Find(Icons, Icons[k].id) == Some(Icons[k])
  {
    IconIdsDistinct();
    var r := Find(Icons, Icons[k].id);
    assert !(forall i :: 0 <= i < |Icons| ==> Icons[i].id != Icons[k].id);
    var i :| 0 <= i < |Icons| && Icons[i] == r.value && r.value.id == Icons[k].id
             && forall j :: 0 <= j < i ==> Icons[j].id != Icons[k].id;
    assert i == k;
  }
}
