/**
 * The interactive map of youth houses. Without a usable access token the component shows
 * a plain list of the houses instead. With one, its effect loads the map library, creates
 * one map centred on the configured (or default Brussels) point and adds a marker with a
 * popup for every house whose latitude and longitude are both non-empty. The map object
 * is kept in a single ref that decides whether the effect builds anything; the effect's
 * cleanup removes the map but leaves the ref set.
 *
 * The map library itself is outside the model: a `MapView` stands for one library map and
 * records the options it was created with, the markers added to it and whether it was
 * removed. `parseFloat` is kept symbolic: a coordinate is either a literal or "the number
 * parsed from this text".
 */
module InteractiveMap {
  import opened Wrappers
  import opened Types

  const PlaceholderToken := "pk.test"
  const DefaultLat: real := 50.8476
  const DefaultLng: real := 4.3572
  const DefaultZoom: real := 12.0
  const YouthHousesPath := "/youth-houses/"

  /** The token gate: no token, an empty one and the placeholder "pk.test" all fail it. */
  predicate TokenUsable(token: Option<string>) {
    token.Some? && token.value != "" && token.value != PlaceholderToken
  }

  // ---------------------------------------------------------------------------------------
  // What the component renders

  /** One item of the list shown instead of the map. */
  datatype FallbackEntry = FallbackEntry(key: string, heading: string, neighborhood: Option<string>)

  datatype Rendered = Fallback(entries: seq<FallbackEntry>) | MapContainer

  function FallbackEntryFor(h: YouthHouse): FallbackEntry {
    FallbackEntry(h.id, h.Label(), if Truthy(h.metadata.neighborhood) then h.metadata.neighborhood else None)
  }

  /**
   * Without a usable token the component renders the fallback list: every house, in input
   * order, headed by its name (else its title), with its neighborhood only when non-empty.
   * With one it renders the empty container the map is created in.
   */
  function Render(token: Option<string>, houses: seq<YouthHouse>): (r: Rendered)
    ensures r.Fallback? <==> !TokenUsable(token)
    ensures r.Fallback? ==>
      && |r.entries| == |houses|
      && forall i :: 0 <= i < |houses| ==>
           && r.entries[i].key == houses[i].id
           && r.entries[i].heading == houses[i].Label()
           && (r.entries[i].neighborhood.Some? <==> Truthy(houses[i].metadata.neighborhood))
           && (r.entries[i].neighborhood.Some? ==> r.entries[i].neighborhood == houses[i].metadata.neighborhood)
  {
    if TokenUsable(token) then MapContainer
    else Fallback(seq(|houses|, i requires 0 <= i < |houses| => FallbackEntryFor(houses[i])))
  }

  // ---------------------------------------------------------------------------------------
  // Map options

  /** A number as the component computes it: a literal, or `parseFloat(text)`. */
  datatype Number = Literal(value: real) | ParsedFrom(text: string)

  /** A position in the order the map library takes it: longitude first. */
  datatype LngLat = LngLat(lng: Number, lat: Number)

  datatype MapOptions = MapOptions(center: LngLat, zoom: real)

  /** A centre coordinate: the setting parsed when it is a non-empty string, else the default. */
  function Coordinate(setting: Option<string>, default: real): (n: Number)
    ensures n.ParsedFrom? <==> Truthy(setting)
    ensures n.ParsedFrom? ==> n.text == setting.value
    ensures n.Literal? ==> n.value == default
  {
    if Truthy(setting) then ParsedFrom(setting.value) else Literal(default)
  }

  /**
   * Centre and zoom of the map: the site settings' centre when set, else Brussels; the
   * settings' zoom unless it is missing or 0 (`map_zoom || 12`), so the zoom is never 0.
   */
  function Options(settings: Option<SiteSettings>): (o: MapOptions)
    ensures var lat := if settings.Some? then settings.value.metadata.mapCenterLat else None;
      && (o.center.lat.ParsedFrom? <==> Truthy(lat))
      && (o.center.lat.ParsedFrom? ==> o.center.lat.text == lat.value)
      && (o.center.lat.Literal? ==> o.center.lat.value == DefaultLat)
    ensures var lng := if settings.Some? then settings.value.metadata.mapCenterLng else None;
      && (o.center.lng.ParsedFrom? <==> Truthy(lng))
      && (o.center.lng.ParsedFrom? ==> o.center.lng.text == lng.value)
      && (o.center.lng.Literal? ==> o.center.lng.value == DefaultLng)
    ensures o.zoom != 0.0
    ensures settings.Some? && settings.value.metadata.mapZoom.Some? && settings.value.metadata.mapZoom.value != 0.0
            ==> o.zoom == settings.value.metadata.mapZoom.value
    ensures settings.None? || settings.value.metadata.mapZoom.None? || settings.value.metadata.mapZoom.value == 0.0
            ==> o.zoom == DefaultZoom
  {
    var m := if settings.Some? then Some(settings.value.metadata) else None;
    var lat := Coordinate(if m.Some? then m.value.mapCenterLat else None, DefaultLat);
    var lng := Coordinate(if m.Some? then m.value.mapCenterLng else None, DefaultLng);
    var zoom := if m.Some? && m.value.mapZoom.Some? && m.value.mapZoom.value != 0.0 then m.value.mapZoom.value else DefaultZoom;
    MapOptions(LngLat(lng, lat), zoom)
  }

  // ---------------------------------------------------------------------------------------
  // Popups

  function NewlineCount(s: string): nat {
    if s == [] then 0 else (if s[0] == '\n' then 1 else 0) + NewlineCount(s[1..])
  }

  /**
   * `s.replace(/\n/g, '<br>')`: every line feed becomes a line break tag, so none is left,
   * each adds three characters, and a text without line feeds comes back unchanged.
   */
  function ReplaceNewlines(s: string): (r: string)
    ensures '\n' !in r
    ensures |r| == |s| + 3 * NewlineCount(s)
    ensures '\n' !in s ==> r == s
  {
    if s == [] then []
    else (if s[0] == '\n' then "<br>" else [s[0]]) + ReplaceNewlines(s[1..])
  }

  /** The rewrite works character by character: a line feed becomes `<br>`, any other character stays. */
  lemma ReplaceNewlinesChar(c: char)
    ensures ReplaceNewlines([c]) == (if c == '\n' then "<br>" else [c])
  {
    assert [c][1..] == [];
  }

  /** The rewrite of a concatenation is the concatenation of the rewrites. */
  lemma {:induction false} ReplaceNewlinesAppend(a: string, b: string)
    ensures ReplaceNewlines(a + b) == ReplaceNewlines(a) + ReplaceNewlines(b)
  {
    if a == [] {
      assert a + b == b;
    } else {
      var ab := a + b;
      assert ab[0] == a[0] && ab[1..] == a[1..] + b;
      var first := if a[0] == '\n' then "<br>" else [a[0]];
      calc {
        ReplaceNewlines(ab);
        first + ReplaceNewlines(a[1..] + b);
        { ReplaceNewlinesAppend(a[1..], b); }
        first + (ReplaceNewlines(a[1..]) + ReplaceNewlines(b));
        (first + ReplaceNewlines(a[1..])) + ReplaceNewlines(b);
      }
    }
  }

  /** Rewriting line feeds twice is the same as rewriting them once. */
  lemma ReplaceNewlinesIdempotent(s: string)
    ensures ReplaceNewlines(ReplaceNewlines(s)) == ReplaceNewlines(s)
  {
  }

  /**
   * The parts of a popup: heading, three optional paragraphs and the link to the house's
   * page. Description, phone, email and website are not part of it.
   */
  datatype Popup = Popup(
    heading: string,
    neighborhood: Option<string>,
    address: Option<string>,
    ages: Option<string>,
    href: string)

  function PopupFor(h: YouthHouse): (p: Popup)
    ensures p.heading == (if h.metadata.name != "" then h.metadata.name else h.title)
    ensures p.neighborhood.Some? <==> Truthy(h.metadata.neighborhood)
    ensures p.neighborhood.Some? ==> p.neighborhood == h.metadata.neighborhood
    ensures p.address.Some? <==> h.metadata.address != ""
    ensures p.address.Some? ==> p.address.value == ReplaceNewlines(h.metadata.address) && '\n' !in p.address.value
    ensures h.metadata.address != "" && '\n' !in h.metadata.address ==> p.address == Some(h.metadata.address)
    ensures p.ages.Some? <==> Truthy(h.metadata.ageRange)
    ensures p.ages.Some? ==> p.ages.value == "Ages: " + h.metadata.ageRange.value
    ensures |p.href| == |YouthHousesPath| + |h.slug|
    ensures p.href[..|YouthHousesPath|] == YouthHousesPath && p.href[|YouthHousesPath|..] == h.slug
  {
    var m := h.metadata;
    Popup(
      h.Label(),
      if Truthy(m.neighborhood) then m.neighborhood else None,
      if m.address != "" then Some(ReplaceNewlines(m.address)) else None,
      if Truthy(m.ageRange) then Some("Ages: " + m.ageRange.value) else None,
      YouthHousesPath + h.slug)
  }

  const HeadingOpen := "<div><h3>"
  const HeadingClose := "</h3>"

  /** An optional paragraph: `<p>text</p>` when present, nothing when absent. */
  function Paragraph(text: Option<string>): string {
    if text.Some? then "<p>" + text.value + "</p>" else ""
  }

  function LinkHtml(href: string): string {
    "<a href=\"" + href + "\">Learn More</a></div>"
  }

  /** Where each of three concatenated texts sits in the result. */
  lemma ThreeParts(x: string, y: string, z: string)
    ensures var s := x + y + z;
      && s[..|x|] == x && s[|x|..|x| + |y|] == y && s[|x| + |y|..] == z
  {
    var s := x + y + z;
    assert s[..|x| + |y|] == x + y;
  }

  /** Where each of five concatenated texts sits in the result. */
  lemma FiveParts(a: string, b: string, c: string, d: string, e: string)
    ensures var s := a + b + c + d + e;
      var i, j, k := |a|, |a| + |b|, |a| + |b| + |c|;
      var l := k + |d|;
      && |s| == l + |e|
      && s[..i] == a && s[i..j] == b && s[j..k] == c && s[k..l] == d && s[l..] == e
  {
    var s := a + b + c + d + e;
    assert s[..|a| + |b| + |c| + |d|] == a + b + c + d;
    assert (a + b + c + d)[..|a| + |b| + |c|] == a + b + c;
    assert (a + b + c)[..|a| + |b|] == a + b;
  }

  /**
   * The popup as the HTML string handed to the library (inline styles and indentation
   * left out). Nothing is escaped. The heading comes verbatim right after the opening tags,
   * then the neighborhood, address and age paragraphs in that order, each only when present,
   * and the document ends with the link; nothing else is in it.
   */
  function PopupHtml(p: Popup): (html: string)
    ensures var a := |HeadingOpen| + |p.heading| + |HeadingClose|;
      var b := a + |Paragraph(p.neighborhood)|;
      var c := b + |Paragraph(p.address)|;
      var d := c + |Paragraph(p.ages)|;
      && |html| == d + |LinkHtml(p.href)|
      && html[..|HeadingOpen|] == HeadingOpen
      && html[|HeadingOpen|..|HeadingOpen| + |p.heading|] == p.heading
      && html[|HeadingOpen| + |p.heading|..a] == HeadingClose
      && html[a..b] == Paragraph(p.neighborhood)
      && html[b..c] == Paragraph(p.address)
      && html[c..d] == Paragraph(p.ages)
      && html[d..] == LinkHtml(p.href)
  {
    var head := HeadingOpen + p.heading + HeadingClose;
    var html := head + Paragraph(p.neighborhood) + Paragraph(p.address) + Paragraph(p.ages) + LinkHtml(p.href);
    ThreeParts(HeadingOpen, p.heading, HeadingClose);
    FiveParts(head, Paragraph(p.neighborhood), Paragraph(p.address), Paragraph(p.ages), LinkHtml(p.href));
    html
  }

  // ---------------------------------------------------------------------------------------
  // Markers

  /** The marker test: both coordinate strings are non-empty. Nothing checks they parse. */
  predicate HasCoordinates(h: YouthHouse) {
    h.metadata.latitude != "" && h.metadata.longitude != ""
  }

  datatype Marker = Marker(position: LngLat, popupHtml: string)

  function MarkerFor(h: YouthHouse): Marker {
    Marker(LngLat(ParsedFrom(h.metadata.longitude), ParsedFrom(h.metadata.latitude)), PopupHtml(PopupFor(h)))
  }

  /** The houses that get a marker, in input order. */
  function Mappable(hs: seq<YouthHouse>): (ms: seq<YouthHouse>)
    ensures |ms| <= |hs|
  {
    if hs == [] then []
    else (if HasCoordinates(hs[0]) then [hs[0]] else []) + Mappable(hs[1..])
  }

  /** A house is among the mappable ones exactly when it is in the input with both coordinates. */
  lemma {:induction false} MappableMembers(hs: seq<YouthHouse>, h: YouthHouse)
    ensures h in Mappable(hs) <==> h in hs && HasCoordinates(h)
  {
    if hs != [] {
      MappableMembers(hs[1..], h);
      assert h in hs <==> h == hs[0] || h in hs[1..];
    }
  }

  /** One more house at the end is one more mappable house at the end, if it has coordinates. */
  lemma {:induction false} MappableAppend(hs: seq<YouthHouse>, h: YouthHouse)
    ensures Mappable(hs + [h]) == Mappable(hs) + (if HasCoordinates(h) then [h] else [])
  {
    if hs != [] {
      assert (hs + [h])[1..] == hs[1..] + [h];
      MappableAppend(hs[1..], h);
    }
  }

  /**
   * The markers the effect adds for `hs`: one per mappable house, in the same order, so
   * their count is the number of houses with both coordinates.
   */
  function MarkersFor(hs: seq<YouthHouse>): (ms: seq<Marker>)
    ensures |ms| == |Mappable(hs)|
  {
    var m := Mappable(hs);
    seq(|m|, k requires 0 <= k < |m| => MarkerFor(m[k]))
  }

  /** One more house at the end adds its marker at the end, if it has coordinates. */
  lemma MarkersForAppend(hs: seq<YouthHouse>, h: YouthHouse)
    ensures MarkersFor(hs + [h]) == MarkersFor(hs) + (if HasCoordinates(h) then [MarkerFor(h)] else [])
  {
    MappableAppend(hs, h);
    var before, after := MarkersFor(hs), MarkersFor(hs + [h]);
    var extra := if HasCoordinates(h) then [MarkerFor(h)] else [];
    assert |after| == |before| + |extra|;
    assert forall k :: 0 <= k < |before| ==> after[k] == before[k];
    assert forall k :: |before| <= k < |after| ==> after[k] == extra[k - |before|];
  }

  /**
   * Each marker stands at [longitude, latitude] as parsed from the house's strings, and its
   * popup links to the house's page.
   */
  lemma MarkerPlacement(h: YouthHouse)
    ensures MarkerFor(h).position.lng == ParsedFrom(h.metadata.longitude)
    ensures MarkerFor(h).position.lat == ParsedFrom(h.metadata.latitude)
    ensures var html := MarkerFor(h).popupHtml;
      html[|html| - |LinkHtml(YouthHousesPath + h.slug)|..] == LinkHtml(YouthHousesPath + h.slug)
  {
    assert PopupFor(h).href == YouthHousesPath + h.slug;
  }

  /**
   * The component's own test is presence only: a latitude such as "abc" passes it, and the
   * component hands the library the parse of "abc" as the marker's latitude.
   */
  lemma PresenceOnly(h: YouthHouse)
    requires h.metadata.latitude == "abc" && h.metadata.longitude == "4.35"
    ensures MarkersFor([h]) == [MarkerFor(h)]
    ensures MarkerFor(h).position == LngLat(ParsedFrom("4.35"), ParsedFrom("abc"))
  {
    assert [h][1..] == [];
    assert Mappable([h]) == [h];
  }

  /** A house with either coordinate empty gets no marker, whatever else it has. */
  lemma MissingCoordinateExcluded(hs: seq<YouthHouse>, h: YouthHouse)
    requires h.metadata.latitude == "" || h.metadata.longitude == ""
    ensures MarkersFor(hs + [h]) == MarkersFor(hs)
  {
    MarkersForAppend(hs, h);
  }

  // ---------------------------------------------------------------------------------------
  // The library map and the component's lifecycle

  /** One map of the library, as far as the component uses it. */
  class MapView {
    const options: MapOptions
    var markers: seq<Marker>
    var removed: bool

    constructor (options: MapOptions)
      ensures this.options == options && markers == [] && !removed
    {
      this.options := options;
      markers := [];
      removed := false;
    }

    /** `new Marker(el).setLngLat(...).setPopup(...).addTo(map)`. */
    method AddMarker(m: Marker)
      modifies this
      ensures markers == old(markers) + [m] && removed == old(removed)
    {
      markers := markers + [m];
    }

    /** `map.remove()`. */
    method Remove()
      modifies this
      ensures removed && markers == old(markers)
    {
      removed := true;
    }
  }

  /**
   * The `forEach` over the houses: a marker is added to the new map for each house with
   * both coordinates, in input order.
   */
  method AddMarkers(view: MapView, houses: seq<YouthHouse>)
    requires view.markers == [] && !view.removed
    modifies view
    ensures view.markers == MarkersFor(houses) && !view.removed
  {
    var j := 0;
    while j < |houses|
      invariant 0 <= j <= |houses|
      invariant view.markers == MarkersFor(houses[..j]) && !view.removed
    {
      var h := houses[j];
      if HasCoordinates(h) {
        view.AddMarker(MarkerFor(h));
      }
      MarkersForAppend(houses[..j], h);
      assert houses[..j + 1] == houses[..j] + [h];
      j := j + 1;
    }
    assert houses[..j] == houses;
  }

  /** What the callback of one `import('mapbox-gl')` captured from the effect run that started it. */
  datatype PendingLoad = PendingLoad(houses: seq<YouthHouse>, settings: Option<SiteSettings>)

  /**
   * One component: its access token (read from the environment), whether the container ref
   * holds an element (until unmount), the `map` ref, the library loads not yet settled and
   * whether the last effect run left a cleanup for React to call.
   */
  class MapComponent {
    const token: Option<string>
    var hasContainer: bool
    var mapRef: MapView?
    var pendingLoads: seq<PendingLoad>
    var cleanupRegistered: bool

    constructor (token: Option<string>, hasContainer: bool)
      ensures this.token == token && this.hasContainer == hasContainer
      ensures mapRef == null && pendingLoads == [] && !cleanupRegistered
    {
      this.token := token;
      this.hasContainer := hasContainer;
      mapRef := null;
      pendingLoads := [];
      cleanupRegistered := false;
    }

    /** Whether an effect run gets past both early returns. */
    predicate WillLoad()
      reads this
    {
      TokenUsable(token) && hasContainer && mapRef == null
    }

    /**
     * The effect body. Without a usable token, without a container or with the ref already
     * set it returns at once and leaves no cleanup. Otherwise it starts loading the library
     * (the load remembers the houses and settings of this run) and leaves a cleanup.
     * React calls the previous run's cleanup before running the effect again.
     */
    method RunEffect(houses: seq<YouthHouse>, settings: Option<SiteSettings>)
      requires !cleanupRegistered
      modifies this
      ensures mapRef == old(mapRef) && hasContainer == old(hasContainer)
      ensures old(WillLoad()) ==> pendingLoads == old(pendingLoads) + [PendingLoad(houses, settings)] && cleanupRegistered
      ensures !old(WillLoad()) ==> pendingLoads == old(pendingLoads) && !cleanupRegistered
    {
      if !TokenUsable(token) {
        return;
      }
      if !hasContainer || mapRef != null {
        return;
      }
      pendingLoads := pendingLoads + [PendingLoad(houses, settings)];
      cleanupRegistered := true;
    }

    /**
     * The library for load `i` arrives. While the container is attached, a new map is
     * created with the options from the load's settings, stored in the ref (whatever the ref
     * held before, and whether or not its effect was cleaned up: nothing cancels a late
     * load), and one marker is added per house with coordinates, in input order. After
     * unmount the callback hands the library a null container, which its constructor
     * rejects; the `.catch` logs that and nothing is built.
     */
    method LoadSucceeded(i: nat)
      requires i < |pendingLoads|
      modifies this
      ensures old(hasContainer) ==> fresh(mapRef)
      ensures old(hasContainer) ==> mapRef.options == Options(old(pendingLoads[i].settings))
      ensures old(hasContainer) ==> mapRef.markers == MarkersFor(old(pendingLoads[i].houses)) && !mapRef.removed
      ensures !old(hasContainer) ==> mapRef == old(mapRef)
      ensures pendingLoads == old(pendingLoads[..i] + pendingLoads[i + 1..])
      ensures cleanupRegistered == old(cleanupRegistered) && hasContainer == old(hasContainer)
    {
      var load := pendingLoads[i];
      pendingLoads := pendingLoads[..i] + pendingLoads[i + 1..];
      if !hasContainer {
        return;
      }
      var view := new MapView(Options(load.settings));
      mapRef := view;
      AddMarkers(view, load.houses);
    }

    /** Load `i` fails: the error is logged and nothing else happens. */
    method LoadFailed(i: nat)
      requires i < |pendingLoads|
      modifies this
      ensures pendingLoads == old(pendingLoads[..i] + pendingLoads[i + 1..])
      ensures mapRef == old(mapRef) && cleanupRegistered == old(cleanupRegistered) && hasContainer == old(hasContainer)
    {
      pendingLoads := pendingLoads[..i] + pendingLoads[i + 1..];
    }

    /** The cleanup: removes the map the ref holds, and leaves the ref set. */
    method Cleanup()
      requires cleanupRegistered
      modifies this, mapRef
      ensures mapRef == old(mapRef) && pendingLoads == old(pendingLoads) && !cleanupRegistered
      ensures hasContainer == old(hasContainer)
      ensures mapRef != null ==> mapRef.removed && mapRef.markers == old(mapRef.markers)
    {
      if mapRef != null {
        mapRef.Remove();
      }
      cleanupRegistered := false;
    }

    /**
     * Unmounting: React calls the cleanup the last effect run left, if any, and sets the
     * container ref to null. Loads still pending are not cancelled.
     */
    method Unmount()
      modifies this, mapRef
      ensures !hasContainer && !cleanupRegistered
      ensures mapRef == old(mapRef) && pendingLoads == old(pendingLoads)
      ensures mapRef != null ==> mapRef.markers == old(mapRef.markers)
      ensures mapRef != null ==> mapRef.removed == (old(cleanupRegistered) || old(mapRef.removed))
    {
      if cleanupRegistered {
        Cleanup();
      }
      hasContainer := false;
    }
  }

  /**
   * Mount, load, then a change of the houses: the cleanup removes the map, but the ref
   * still holds it, so the new effect run returns early and no map or marker is rebuilt.
   */
  method RerunAfterCleanupBuildsNothing(token: string, houses: seq<YouthHouse>, newHouses: seq<YouthHouse>)
    requires TokenUsable(Some(token))
  {
    var c := new MapComponent(Some(token), true);
    c.RunEffect(houses, None);
    c.LoadSucceeded(0);
    var first := c.mapRef;
    assert |first.markers| == |Mappable(houses)|;
    c.Cleanup();
    assert first.removed;
    c.RunEffect(newHouses, None);
    assert c.mapRef == first && c.pendingLoads == [] && !c.cleanupRegistered;
  }

  /**
   * Unmounted before the library arrives: the late callback finds no container, so no map
   * is built and the ref stays empty.
   */
  method LateLoadAfterUnmount(token: string, houses: seq<YouthHouse>)
    requires TokenUsable(Some(token))
  {
    var c := new MapComponent(Some(token), true);
    c.RunEffect(houses, None);
    c.Unmount();
    c.LoadSucceeded(0);
    assert c.mapRef == null && c.pendingLoads == [];
  }

  /**
   * The houses change before the library arrives: the cleanup finds an empty ref, so the
   * new run starts a second load. Both loads build a map; the ref ends on the second, and
   * the first is never removed.
   */
  method RerunBeforeLoadBuildsTwoMaps(token: string, houses: seq<YouthHouse>, newHouses: seq<YouthHouse>)
    requires TokenUsable(Some(token))
  {
    var c := new MapComponent(Some(token), true);
    c.RunEffect(houses, None);
    c.Cleanup();
    c.RunEffect(newHouses, None);
    assert |c.pendingLoads| == 2;
    c.LoadSucceeded(0);
    var first := c.mapRef;
    c.LoadSucceeded(0);
    assert c.mapRef != first && !first.removed && first.markers == MarkersFor(houses);
    assert c.mapRef.markers == MarkersFor(newHouses);
  }

  /** With the placeholder token nothing loads and the list is rendered instead. */
  method PlaceholderTokenShowsList(houses: seq<YouthHouse>)
  {
    var c := new MapComponent(Some(PlaceholderToken), true);
    c.RunEffect(houses, None);
    assert c.mapRef == null && c.pendingLoads == [];
    assert Render(Some(PlaceholderToken), houses).Fallback?;
  }

  /** A failed library load leaves no map, and the cleanup then has nothing to remove. */
  method FailedLoadLeavesNoMap(token: string, houses: seq<YouthHouse>)
    requires TokenUsable(Some(token))
  {
    var c := new MapComponent(Some(token), true);
    c.RunEffect(houses, None);
    c.LoadFailed(0);
    assert c.mapRef == null && c.pendingLoads == [];
    c.Cleanup();
    assert c.mapRef == null;
  }
}
