/**
 * The desktop's window manager (src/App.js): the ordered list `openApps` of
 * open window records, the registry of launchable apps, and the geometry
 * clamp applied when a window is opened, dragged or resized.
 *
 * The list operations are pure functions over `seq<Window>`; the class
 * `Desktop` holds the `openApps` state slot and replaces it, one event at a
 * time, with the function's result. The desktop's bounding rectangle is
 * measured by the browser at every call and is therefore a parameter.
 */
module WindowStore {
  import opened Text

  datatype Point = Point(x: real, y: real)

  datatype Size = Size(width: real, height: real)

  /** The desktop element's bounding client rectangle. */
  datatype Rect = Rect(width: real, height: real)

  /** What a window body renders, named by its component. */
  datatype Content = Content(component: string)

  /** An entry of the icon registry. */
  datatype AppDescriptor = AppDescriptor(
    id: string, name: string, icon: string, content: Content, defaultSize: Size)

  /** One open window: `{id, name, content, position, size}`. */
  datatype Window = Window(id: string, name: string, content: Content, position: Point, size: Size)

  /** Where every new window is placed. */
  const Origin: Point := Point(50.0, 50.0)

  /** The size of an ad-hoc window opened without one. */
  const DefaultAdHocSize: Size := Size(300.0, 200.0)

  /** No window may be opened or resized past this share of the desktop. */
  const MaxShare: real := 0.8

  /** The apps behind the desktop icons, in icon order. */
  const Registry: seq<AppDescriptor> := [
    AppDescriptor("myComputer", "My Computer", "\U{1F5A5}\U{FE0F}", Content("MyComputer"), Size(300.0, 200.0)),
    AppDescriptor("documents", "My Documents", "\U{1F4C1}", Content("MyDocuments"), Size(300.0, 200.0)),
    AppDescriptor("internetExplorer", "Internet Explorer", "\U{1F310}", Content("InternetExplorer"), Size(300.0, 200.0)),
    AppDescriptor("recycleBin", "Recycle Bin", "\U{1F5D1}\U{FE0F}", Content("RecycleBin"), Size(300.0, 200.0)),
    AppDescriptor("mediaPlayer", "Media Player", "\U{1F3B5}", Content("MediaPlayer"), Size(300.0, 200.0)),
    AppDescriptor("spotifyApp", "Spotify", "\U{1F3A7}", Content("SpotifyApp"), Size(400.0, 400.0))
  ]

  /** Registry ids are pairwise distinct: they differ in their first letter or their length. */
  lemma RegistryIdsDistinct()
    ensures forall i, j :: 0 <= i < j < |Registry| ==> Registry[i].id != Registry[j].id
  {
    forall i, j | 0 <= i < j < |Registry| ensures Registry[i].id != Registry[j].id {
      assert Registry[i].id[0] != Registry[j].id[0] || |Registry[i].id| != |Registry[j].id|;
    }
  }

  /** No registry id contains a hyphen: they are made of letters only. */
  lemma RegistryIdsHaveNoHyphen()
    ensures forall i :: 0 <= i < |Registry| ==> '-' !in Registry[i].id
  {
    forall i | 0 <= i < |Registry| ensures '-' !in Registry[i].id {
      var id := Registry[i].id;
      assert forall k :: 0 <= k < |id| ==> 'a' <= id[k] <= 'z' || 'A' <= id[k] <= 'Z';
    }
  }

  // ---------------------------------------------------------------------
  // Geometry clamp
  // ---------------------------------------------------------------------

  function Min(a: real, b: real): real { if a <= b then a else b }

  function Max(a: real, b: real): real { if a >= b then a else b }

  /**
   * `Math.max(0, Math.min(p, bound - extent))`: one coordinate of a dragged
   * window, kept off the negative side and, when the window fits, inside the
   * desktop; a proposal already inside is kept, one past the far edge lands
   * against it, and one before the near edge lands at 0.
   */
  function ClampCoord(p: real, extent: real, bound: real): (r: real)
    ensures 0.0 <= r
    ensures extent <= bound ==> r + extent <= bound
    ensures 0.0 <= p && p + extent <= bound ==> r == p
    ensures 0.0 <= bound - extent <= p ==> r == bound - extent
    ensures p <= 0.0 || bound - extent <= 0.0 ==> r == 0.0
  {
    Max(0.0, Min(p, bound - extent))
  }

  /**
   * `Math.min(proposed, bound * 0.8)`: one extent of a window, capped at 80%
   * of the desktop; a proposal under the cap is kept.
   */
  function CapExtent(proposed: real, bound: real): (r: real)
    ensures r <= MaxShare * bound && r <= proposed
    ensures r == proposed || r == MaxShare * bound
  {
    Min(proposed, MaxShare * bound)
  }

  function CappedSize(proposed: Size, desk: Rect): Size
  {
    Size(CapExtent(proposed.width, desk.width), CapExtent(proposed.height, desk.height))
  }

  // ---------------------------------------------------------------------
  // Looking windows up by id
  // ---------------------------------------------------------------------

  predicate HasId(apps: seq<Window>, id: string)
  {
    exists i :: 0 <= i < |apps| && apps[i].id == id
  }

  /** `openApps.find(a => a.id === id)`, as an index. */
  function FirstIndex(apps: seq<Window>, id: string): (k: nat)
    requires HasId(apps, id)
    ensures k < |apps| && apps[k].id == id
    ensures forall j :: 0 <= j < k ==> apps[j].id != id
  {
    if apps[0].id == id then 0
    else
      assert apps == [apps[0]] + apps[1..];
      assert HasId(apps[1..], id) by {
        var i :| 0 <= i < |apps| && apps[i].id == id;
        assert apps[1..][i - 1].id == id;
      }
      1 + FirstIndex(apps[1..], id)
  }

  /** How many open windows carry `id`. */
  function CountId(apps: seq<Window>, id: string): nat
  {
    if apps == [] then 0 else (if apps[0].id == id then 1 else 0) + CountId(apps[1..], id)
  }

  lemma {:induction false} CountIdPositive(apps: seq<Window>, id: string)
    ensures CountId(apps, id) > 0 <==> HasId(apps, id)
  {
    if apps != [] {
      CountIdPositive(apps[1..], id);
      if HasId(apps, id) && apps[0].id != id {
        var i :| 0 <= i < |apps| && apps[i].id == id;
        assert apps[1..][i - 1].id == id;
      }
      if HasId(apps[1..], id) {
        var i :| 0 <= i < |apps| - 1 && apps[1..][i].id == id;
        assert apps[i + 1].id == id;
      }
    }
  }

  lemma {:induction false} CountIdAppend(apps: seq<Window>, w: Window, id: string)
    ensures CountId(apps + [w], id) == CountId(apps, id) + (if w.id == id then 1 else 0)
  {
    if apps != [] {
      assert (apps + [w])[1..] == apps[1..] + [w];
      CountIdAppend(apps[1..], w, id);
    }
  }

  /** Lists whose ids agree position by position count every id alike. */
  lemma {:induction false} CountIdSameIds(a: seq<Window>, b: seq<Window>, id: string)
    requires |a| == |b|
    requires forall i :: 0 <= i < |a| ==> a[i].id == b[i].id
    ensures CountId(a, id) == CountId(b, id)
  {
    if a != [] { CountIdSameIds(a[1..], b[1..], id); }
  }

  // ---------------------------------------------------------------------
  // openApp
  // ---------------------------------------------------------------------

  /**
   * `openApp(app)`: nothing happens when a window with the app's id is open;
   * otherwise one window is appended at (50, 50), its default size capped at
   * 80% of the desktop.
   */
  function Opened(apps: seq<Window>, app: AppDescriptor, desk: Rect): (r: seq<Window>)
    ensures HasId(apps, app.id) ==> r == apps
    ensures !HasId(apps, app.id) ==>
      && |r| == |apps| + 1 && r[..|apps|] == apps
      && var w := r[|apps|];
      && w.id == app.id && w.name == app.name && w.content == app.content
      && w.position == Origin
      && w.size.width <= MaxShare * desk.width && w.size.width <= app.defaultSize.width
      && w.size.height <= MaxShare * desk.height && w.size.height <= app.defaultSize.height
      && (app.defaultSize.width <= MaxShare * desk.width ==> w.size.width == app.defaultSize.width)
      && (app.defaultSize.height <= MaxShare * desk.height ==> w.size.height == app.defaultSize.height)
      && (w.size.width == app.defaultSize.width || w.size.width == MaxShare * desk.width)
      && (w.size.height == app.defaultSize.height || w.size.height == MaxShare * desk.height)
  {
    if HasId(apps, app.id) then apps
    else apps + [Window(app.id, app.name, app.content, Origin, CappedSize(app.defaultSize, desk))]
  }

  /** Opening an app that is already open again changes nothing, whatever the desktop's size. */
  lemma OpenedIdempotent(apps: seq<Window>, app: AppDescriptor, d1: Rect, d2: Rect)
    ensures Opened(Opened(apps, app, d1), app, d2) == Opened(apps, app, d1)
  {
    var once := Opened(apps, app, d1);
    if !HasId(apps, app.id) {
      assert once[|apps|].id == app.id;
    }
  }

  /**
   * After `openApp`, the app has exactly one window, provided it had at most
   * one before; every other id keeps its count.
   */
  lemma OpenedCount(apps: seq<Window>, app: AppDescriptor, desk: Rect, id: string)
    requires CountId(apps, app.id) <= 1
    ensures CountId(Opened(apps, app, desk), app.id) == 1
    ensures id != app.id ==> CountId(Opened(apps, app, desk), id) == CountId(apps, id)
  {
    CountIdPositive(apps, app.id);
    var r := Opened(apps, app, desk);
    if !HasId(apps, app.id) {
      assert r == apps + [r[|apps|]];
      CountIdAppend(apps, r[|apps|], app.id);
      CountIdAppend(apps, r[|apps|], id);
    }
  }

  // ---------------------------------------------------------------------
  // openNewWindow
  // ---------------------------------------------------------------------

  /** `${appName}-${Date.now()}`. */
  function AdHocId(name: string, now: nat): string
  {
    name + "-" + NatToString(now)
  }

  /** An ad-hoc id names its window and its opening instant unambiguously, and carries a hyphen. */
  lemma AdHocIdInjective(n1: string, t1: nat, n2: string, t2: nat)
    ensures '-' in AdHocId(n1, t1)
    ensures AdHocId(n1, t1) == AdHocId(n2, t2) ==> n1 == n2 && t1 == t2
  {
    var s1, s2 := AdHocId(n1, t1), AdHocId(n2, t2);
    assert s1[|n1|] == '-';
    if s1 == s2 {
      var d1, d2 := NatToString(t1), NatToString(t2);
      assert s1[|n1|] == '-' && s2[|n2|] == '-';
      forall k | |n1| < k < |s1| ensures IsDigit(s1[k]) { assert s1[k] == d1[k - |n1| - 1]; }
      forall k | |n2| < k < |s2| ensures IsDigit(s2[k]) { assert s2[k] == d2[k - |n2| - 1]; }
      assert n1 == s1[..|n1|] && n2 == s2[..|n2|];
      assert d1 == s1[|n1| + 1..] && d2 == s2[|n2| + 1..];
      NatToStringInjective(t1, t2);
    }
  }

  /**
   * `openNewWindow(appName, content, size)`: always appends one window, with
   * no duplicate check, at (50, 50), with the given size (not clamped) or
   * 300x200 when none is given.
   */
  function OpenedAdHoc(apps: seq<Window>, name: string, content: Content, size: Option<Size>, now: nat)
    : (r: seq<Window>)
    ensures |r| == |apps| + 1 && r[..|apps|] == apps
    ensures r[|apps|].id == AdHocId(name, now) && r[|apps|].name == name
    ensures r[|apps|].content == content && r[|apps|].position == Origin
    ensures r[|apps|].size == (if size.Some? then size.value else DefaultAdHocSize)
  {
    apps + [Window(AdHocId(name, now), name, content, Origin,
                   if size.Some? then size.value else DefaultAdHocSize)]
  }

  /**
   * Two ad-hoc windows with the same name opened within the same millisecond
   * share an id: the list then holds that id twice.
   */
  lemma AdHocSameInstantCollides(apps: seq<Window>, name: string, c1: Content, c2: Content,
                                 s1: Option<Size>, s2: Option<Size>, now: nat)
    requires !HasId(apps, AdHocId(name, now))
    ensures CountId(OpenedAdHoc(OpenedAdHoc(apps, name, c1, s1, now), name, c2, s2, now), AdHocId(name, now)) == 2
  {
    var id := AdHocId(name, now);
    var once := OpenedAdHoc(apps, name, c1, s1, now);
    CountIdPositive(apps, id);
    assert once == apps + [once[|apps|]];
    CountIdAppend(apps, once[|apps|], id);
    var twice := OpenedAdHoc(once, name, c2, s2, now);
    assert twice == once + [twice[|once|]];
    CountIdAppend(once, twice[|once|], id);
  }

  /** An ad-hoc window never shares an id that has no hyphen, so the registry's ids keep their counts. */
  lemma OpenedAdHocCount(apps: seq<Window>, name: string, content: Content, size: Option<Size>,
                         now: nat, id: string)
    requires '-' !in id
    ensures CountId(OpenedAdHoc(apps, name, content, size, now), id) == CountId(apps, id)
  {
    var r := OpenedAdHoc(apps, name, content, size, now);
    AdHocIdInjective(name, now, name, now);
    assert r == apps + [r[|apps|]];
    CountIdAppend(apps, r[|apps|], id);
  }

  // ---------------------------------------------------------------------
  // closeApp
  // ---------------------------------------------------------------------

  /** `openApps.filter(app => app.id !== appId)`. */
  function Closed(apps: seq<Window>, id: string): (r: seq<Window>)
    ensures |r| <= |apps|
    ensures forall w :: w in r <==> w in apps && w.id != id
    ensures !HasId(apps, id) ==> r == apps
  {
    if apps == [] then []
    else
      assert apps == [apps[0]] + apps[1..];
      assert !HasId(apps, id) ==> !HasId(apps[1..], id) by {
        if HasId(apps[1..], id) {
          var i :| 0 <= i < |apps| - 1 && apps[1..][i].id == id;
          assert apps[i + 1].id == id;
        }
      }
      if apps[0].id == id then Closed(apps[1..], id) else [apps[0]] + Closed(apps[1..], id)
  }

  /** Closing works window by window: the survivors keep their relative order. */
  lemma {:induction false} ClosedConcat(a: seq<Window>, b: seq<Window>, id: string)
    ensures Closed(a + b, id) == Closed(a, id) + Closed(b, id)
  {
    if a != [] {
      assert (a + b)[0] == a[0];
      assert (a + b)[1..] == a[1..] + b;
      ClosedConcat(a[1..], b, id);
    } else {
      assert a + b == b;
    }
  }

  /** Closing removes every window with the id and keeps every other count. */
  lemma {:induction false} ClosedCount(apps: seq<Window>, id: string, other: string)
    ensures CountId(Closed(apps, id), id) == 0
    ensures other != id ==> CountId(Closed(apps, id), other) == CountId(apps, other)
  {
    if apps != [] {
      ClosedCount(apps[1..], id, other);
      var rest := Closed(apps[1..], id);
      if apps[0].id != id {
        assert ([apps[0]] + rest)[1..] == rest;
      }
    }
  }

  // ---------------------------------------------------------------------
  // updateAppPosition and updateAppSize
  // ---------------------------------------------------------------------

  /** `openApps.map(app => app.id === id ? {...app, position: p} : app)`. */
  function WithPosition(apps: seq<Window>, id: string, p: Point): seq<Window>
  {
    seq(|apps|, i requires 0 <= i < |apps| =>
      if apps[i].id == id then apps[i].(position := p) else apps[i])
  }

  /** `openApps.map(app => app.id === id ? {...app, size: s} : app)`. */
  function WithSize(apps: seq<Window>, id: string, s: Size): seq<Window>
  {
    seq(|apps|, i requires 0 <= i < |apps| =>
      if apps[i].id == id then apps[i].(size := s) else apps[i])
  }

  /**
   * `updateAppPosition(id, position)`: the proposed top-left corner is clamped
   * with the size of the first window carrying the id, and written into every
   * window carrying it; nothing else changes. The id must be open: the source
   * reads `app.size` of the window it found.
   */
  function Moved(apps: seq<Window>, id: string, proposed: Point, desk: Rect): (r: seq<Window>)
    requires HasId(apps, id)
    ensures |r| == |apps|
    ensures forall i :: 0 <= i < |apps| ==>
      && r[i].id == apps[i].id && r[i].name == apps[i].name
      && r[i].content == apps[i].content && r[i].size == apps[i].size
    ensures forall i :: 0 <= i < |apps| && apps[i].id != id ==> r[i] == apps[i]
    ensures forall i :: 0 <= i < |apps| && apps[i].id == id ==>
      var s := apps[FirstIndex(apps, id)].size;
      var q := r[i].position;
      && 0.0 <= q.x && 0.0 <= q.y
      && (s.width <= desk.width ==> q.x + s.width <= desk.width)
      && (s.height <= desk.height ==> q.y + s.height <= desk.height)
      && (0.0 <= proposed.x && proposed.x + s.width <= desk.width ==> q.x == proposed.x)
      && (0.0 <= proposed.y && proposed.y + s.height <= desk.height ==> q.y == proposed.y)
      && (0.0 <= desk.width - s.width <= proposed.x ==> q.x == desk.width - s.width)
      && (0.0 <= desk.height - s.height <= proposed.y ==> q.y == desk.height - s.height)
      && (proposed.x <= 0.0 || desk.width - s.width <= 0.0 ==> q.x == 0.0)
      && (proposed.y <= 0.0 || desk.height - s.height <= 0.0 ==> q.y == 0.0)
  {
    var s := apps[FirstIndex(apps, id)].size;
    WithPosition(apps, id, Point(ClampCoord(proposed.x, s.width, desk.width),
                                 ClampCoord(proposed.y, s.height, desk.height)))
  }

  /**
   * `updateAppSize(id, size)` with the proposed width and height already
   * parsed: each is capped at 80% of the desktop, with no lower bound, and
   * written into every window carrying the id; positions and everything else
   * stay. An id that is not open leaves the list as it was.
   */
  function Resized(apps: seq<Window>, id: string, width: int, height: int, desk: Rect): (r: seq<Window>)
    ensures |r| == |apps|
    ensures forall i :: 0 <= i < |apps| ==>
      && r[i].id == apps[i].id && r[i].name == apps[i].name
      && r[i].content == apps[i].content && r[i].position == apps[i].position
    ensures forall i :: 0 <= i < |apps| && apps[i].id != id ==> r[i] == apps[i]
    ensures forall i :: 0 <= i < |apps| && apps[i].id == id ==>
      var s := r[i].size;
      && s.width <= MaxShare * desk.width && s.width <= width as real
      && s.height <= MaxShare * desk.height && s.height <= height as real
      && (width as real <= MaxShare * desk.width ==> s.width == width as real)
      && (height as real <= MaxShare * desk.height ==> s.height == height as real)
      && (s.width == width as real || s.width == MaxShare * desk.width)
      && (s.height == height as real || s.height == MaxShare * desk.height)
    ensures !HasId(apps, id) ==> r == apps
  {
    WithSize(apps, id, Size(CapExtent(width as real, desk.width), CapExtent(height as real, desk.height)))
  }

  /** Dragging a 300x200 window at (780, 10) to (790, 10) on an 800x600 desktop leaves it at (500, 10). */
  lemma MoveScenario()
    ensures var w := Window("a", "A", Content("A"), Point(780.0, 10.0), Size(300.0, 200.0));
            HasId([w], "a") &&
            Moved([w], "a", Point(790.0, 10.0), Rect(800.0, 600.0))[0].position == Point(500.0, 10.0)
  {
    var w := Window("a", "A", Content("A"), Point(780.0, 10.0), Size(300.0, 200.0));
    assert [w][0].id == "a";
  }

  /** Resizing to 1000x100 on an 800x600 desktop gives 640x100: the width is capped and no height floor applies. */
  lemma ResizeScenario()
    ensures var w := Window("a", "A", Content("A"), Point(50.0, 50.0), Size(300.0, 200.0));
            Resized([w], "a", 1000, 100, Rect(800.0, 600.0))[0].size == Size(640.0, 100.0)
  {
  }

  // ---------------------------------------------------------------------
  // The openApps state slot
  // ---------------------------------------------------------------------

  /**
   * No id without a hyphen (every registry id) is open twice. Ad-hoc ids
   * always carry a hyphen, and they may repeat.
   */
  ghost predicate SingleInstances(apps: seq<Window>)
  {
    forall id :: '-' !in id ==> CountId(apps, id) <= 1
  }

  /**
   * The list an `openNewWindow` closure holds. The registry's elements are
   * rebuilt at every render with that render's `openNewWindow`, and
   * `openApp` stores the element in the window record, so a window keeps
   * the callback of the render in which it was opened: the one that saw the
   * list just before the window itself was added.
   */
  ghost predicate CapturedValid(captured: map<string, seq<Window>>)
  {
    forall id :: id in captured ==> SingleInstances(captured[id]) && !HasId(captured[id], id)
  }

  class Desktop {
    var openApps: seq<Window>
    /** For each window opened from the registry: the list its content's `openNewWindow` appends to. */
    var captured: map<string, seq<Window>>

    ghost predicate Valid()
      reads this
    {
      SingleInstances(openApps) && CapturedValid(captured)
    }

    constructor()
      ensures Valid() && openApps == [] && captured == map[]
    {
      openApps := [];
      captured := map[];
    }

    /**
     * A click on a desktop icon. A window that opens keeps, in its content,
     * the `openNewWindow` of this render, which appends to the list as it
     * was before the click.
     */
    method OpenApp(app: AppDescriptor, desk: Rect)
      requires Valid()
      modifies this
      ensures Valid()
      ensures openApps == Opened(old(openApps), app, desk)
      ensures CountId(openApps, app.id) >= 1
      ensures captured == if HasId(old(openApps), app.id) then old(captured)
                          else old(captured)[app.id := old(openApps)]
    {
      var apps := openApps;
      forall id | '-' !in id ensures CountId(Opened(apps, app, desk), id) <= 1 {
        if '-' in app.id {
          CountIdPositive(apps, app.id);
          if !HasId(apps, app.id) {
            var r := Opened(apps, app, desk);
            assert r == apps + [r[|apps|]];
            CountIdAppend(apps, r[|apps|], id);
          }
        } else {
          OpenedCount(apps, app, desk, id);
        }
      }
      CountIdPositive(Opened(apps, app, desk), app.id);
      assert HasId(Opened(apps, app, desk), app.id) by {
        if !HasId(apps, app.id) {
          assert Opened(apps, app, desk)[|apps|].id == app.id;
        }
      }
      if !HasId(apps, app.id) {
        captured := captured[app.id := apps];
      }
      openApps := Opened(apps, app, desk);
    }

    /**
     * A request for a new window, at instant `now`, from the content of the
     * open window `requester`: the callback appends to the list its window
     * captured when it opened, so every window opened since, the requester
     * included, is dropped.
     */
    method OpenNewWindow(requester: string, name: string, content: Content, size: Option<Size>, now: nat)
      requires Valid() && requester in captured && HasId(openApps, requester)
      modifies this
      ensures Valid() && captured == old(captured)
      ensures openApps == OpenedAdHoc(old(captured)[requester], name, content, size, now)
      ensures '-' !in requester ==> !HasId(openApps, requester)
    {
      var apps := captured[requester];
      forall id | '-' !in id ensures CountId(OpenedAdHoc(apps, name, content, size, now), id) <= 1 {
        OpenedAdHocCount(apps, name, content, size, now, id);
      }
      if '-' !in requester {
        OpenedAdHocCount(apps, name, content, size, now, requester);
        CountIdPositive(apps, requester);
        CountIdPositive(OpenedAdHoc(apps, name, content, size, now), requester);
      }
      openApps := OpenedAdHoc(apps, name, content, size, now);
    }

    /** A click on a window's close button. */
    method CloseApp(id: string)
      requires Valid()
      modifies this
      ensures Valid()
      ensures captured == old(captured)
      ensures openApps == Closed(old(openApps), id)
    {
      var apps := openApps;
      forall other | '-' !in other ensures CountId(Closed(apps, id), other) <= 1 {
        ClosedCount(apps, id, other);
      }
      openApps := Closed(apps, id);
    }

    /** The end of a drag. */
    method UpdateAppPosition(id: string, proposed: Point, desk: Rect)
      requires Valid() && HasId(openApps, id)
      modifies this
      ensures Valid()
      ensures captured == old(captured)
      ensures openApps == Moved(old(openApps), id, proposed, desk)
    {
      var apps := openApps;
      forall other | '-' !in other ensures CountId(Moved(apps, id, proposed, desk), other) <= 1 {
        CountIdSameIds(apps, Moved(apps, id, proposed, desk), other);
      }
      openApps := Moved(apps, id, proposed, desk);
    }

    /** The end of a resize, with the frame's new width and height already parsed. */
    method UpdateAppSize(id: string, width: int, height: int, desk: Rect)
      requires Valid()
      modifies this
      ensures Valid()
      ensures captured == old(captured)
      ensures openApps == Resized(old(openApps), id, width, height, desk)
    {
      var apps := openApps;
      forall other | '-' !in other ensures CountId(Resized(apps, id, width, height, desk), other) <= 1 {
        CountIdSameIds(apps, Resized(apps, id, width, height, desk), other);
      }
      openApps := Resized(apps, id, width, height, desk);
    }
  }
}
