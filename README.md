# Youth-houses website: a Dafny model of its decision logic

This project models the parts of a youth-services directory website (Next.js and the
Cosmic headless CMS) that make decisions rather than lay out markup:

- **Content records and type guards** (`types.dfy`). Youth houses, projects, pages and site
  settings are datatypes. Their required metadata fields are `string` and every other field
  is an `Option`. Four guards recognise a generic CMS object by its `type` tag.
- **CMS access** (`cosmic.dfy`). Eight query functions share one error policy. A successful
  query hands the SDK's data through. An error object whose `status` is 404 becomes an empty
  list or null. Every other error becomes a throw with that query's fixed message. The
  backend is a parameter that maps each query to the outcome it settles with.
- **Project card** (`project_card.dfy`). These are pure derivations from a project:
  - the image URL;
  - the status and category badge colours;
  - the title;
  - the description, cut to 120 code units plus `...`;
  - the "first two youth houses, then `+N more`" chips;
  - the date line and its `•` separator;
  - the link to `/projects/<slug>`.
- **Contact form** (`contact_form.dfy`). A `FormState` class has the three fields, the
  `isSubmitting` flag and the `idle | success | error` status. Its methods are the events:
  typing, submit start, submit resolve, submit reject and the reset timer firing. The submit
  button's text and disabled state are a function of that state. The contact column derives
  the `mailto:` and `tel:` lines and the social links.
- **Interactive map** (`interactive_map.dfy`):
  - the token gate, and the fallback list shown without a usable token;
  - the map centre and zoom defaults;
  - the marker filter, which checks only that both coordinate strings are non-empty;
  - the popup HTML builder;
  - the lifecycle of the single `map` ref, in a `MapComponent` class. Its methods are the
    effect run, the library load succeeding or failing, and the cleanup. A `MapView` class
    stands for one map of the library.

Text is a Dafny `string`, a sequence of Unicode scalar values. JavaScript's `.length` and
`substring` count UTF-16 code units instead, and the two counts differ for characters outside
the Basic Multilingual Plane. The only place where the code's behaviour depends on such a
count is the 120-unit cut of a project description. That cut is modelled on code units:
`ProjectCard.Utf16` encodes the text first, and the cut may then split a surrogate pair
(`ProjectCard.CutSplitsSurrogatePair`). An absent required field and an empty one take
the same branch everywhere in the code (`?.` followed by a truthiness test). The model
therefore writes an absent required field as `""`.

The map model follows the code as written:

- A marker is created when both coordinate strings are non-empty. Nothing checks that they
  parse to finite numbers: the component's own test passes "abc" to the library
  (`PresenceOnly`). What the library then does with it is described under "Left out".
- The popup has a heading, optional neighborhood, address and age paragraphs, and a link.
  It has no description, phone, email or website, and nothing in it is HTML-escaped.
- The cleanup removes the map but never resets the ref. The next effect run therefore
  returns early and rebuilds nothing (`RerunAfterCleanupBuildsNothing`).
- Nothing cancels a pending library load, so a load started before a cleanup still runs
  its callback. If the component is still mounted, say because the houses changed and the
  effect re-ran before the library arrived, the cleanup found an empty ref. The re-run then
  starts a second load, and each load builds its own map. The ref ends on the second map,
  and the first is never removed (`RerunBeforeLoadBuildsTwoMaps`).
- After unmount the container ref is null. The callback passes that null to the map
  library's constructor, which rejects it, and the `.catch` only logs the error. So a load
  that arrives after unmount builds nothing (`LateLoadAfterUnmount`).

The methods `SuccessfulRound`, `FailedRound`, `RerunAfterCleanupBuildsNothing`,
`LateLoadAfterUnmount`, `RerunBeforeLoadBuildsTwoMaps`, `PlaceholderTokenShowsList`,
`FailedLoadLeavesNoMap` and `ResetFromAnyOutcome` are client scenarios. Each is proved only from the contracts of the members it calls.

## Model

| member | source | states |
|---|---|---|
| `Types.IsYouthHouse` | types.ts:119-121 | The guard: the object's `type` tag is `youth-houses`. Its exclusivity with the other guards is stated by `KindOf`. |
| `Types.IsProject` | types.ts:123-125 | The guard: the tag is `projects`. |
| `Types.IsPage` | types.ts:127-129 | The guard: the tag is `pages`. |
| `Types.IsSiteSettings` | types.ts:131-132 | The guard: the tag is `site-settings`. |
| `Types.KindOf` | types.ts:119-132 | The kind announced by an object's tag agrees with each of the four guards in both directions: `isYouthHouse` holds iff the tag is `youth-houses`, and likewise for `projects`, `pages` and `site-settings`. No kind is announced exactly when the tag is none of the four. |
| `Types.AtMostOneGuard` | types.ts:119-132 | At most one of the four guards holds for any object. |
| `Types.GuardsRecogniseTheirRecords` | types.ts:14-132 | Each typed record, viewed as a generic object with the tag its interface fixes, is classified as its own kind. |
| `Types.YouthHouse.AsObject` | types.ts:14-15 | A youth house viewed generically passes `isYouthHouse` and keeps its slug and title. |
| `Types.YouthHouse.Label` | components/InteractiveMap.tsx:80 | The label of a house (its name, else its title; used by the popup, the fallback list and the project chips) is the name whenever the name is non-empty, and the title whenever the name is empty. It is empty only when both name and title are. |
| `Types.Project.AsObject` | types.ts:41-42 | A project viewed generically passes `isProject` and keeps its slug and title. |
| `Types.Page.AsObject` | types.ts:67-68 | A page viewed generically passes `isPage` and keeps its slug and title. |
| `Types.SiteSettings.AsObject` | types.ts:83-84 | A site-settings record viewed generically passes `isSiteSettings` and keeps its slug and title. |
| `Cosmic.TypeOf` | lib/cosmic.ts:11 | `typeof` answers "object" exactly for objects and for null. |
| `Cosmic.HasStatus` | lib/cosmic.ts:10-12 | The `typeof`/null/`in` test holds exactly for object values that have a `status` key. |
| `Cosmic.IsNotFound` | lib/cosmic.ts:23-25 | Only an object can be classified as not-found. |
| `Cosmic.CatchCollection` | lib/cosmic.ts:14-29 | The shared try/catch of collection queries. On success it returns `response.objects` unchanged. An object error with `status` equal to the number 404 gives the empty list. Any other error throws the given message. |
| `Cosmic.CatchLookup` | lib/cosmic.ts:31-48 | The shared try/catch of single lookups. On success it returns `response.object`. A 404 object error gives null. Any other error throws the given message. |
| `Cosmic.GetYouthHouses` | lib/cosmic.ts:14-29 | Queries `find` on `youth-houses`. Follows the collection policy with the message "Failed to fetch youth houses". |
| `Cosmic.GetYouthHouseBySlug` | lib/cosmic.ts:31-48 | Queries `findOne` on `youth-houses` with the slug. Follows the lookup policy with "Failed to fetch youth house". |
| `Cosmic.GetProjects` | lib/cosmic.ts:50-65 | Queries `find` on `projects`. Follows the collection policy with "Failed to fetch projects". |
| `Cosmic.GetProjectBySlug` | lib/cosmic.ts:67-84 | Queries `findOne` on `projects` with the slug. Follows the lookup policy with "Failed to fetch project". |
| `Cosmic.GetFeaturedProjects` | lib/cosmic.ts:86-104 | Queries `find` on `projects` restricted to homepage-featured ones. Follows the collection policy with "Failed to fetch featured projects". |
| `Cosmic.GetPages` | lib/cosmic.ts:106-121 | Queries `find` on `pages`. Follows the collection policy with "Failed to fetch pages". |
| `Cosmic.GetPageBySlug` | lib/cosmic.ts:123-140 | Queries `findOne` on `pages` with the slug. Follows the lookup policy with "Failed to fetch page". |
| `Cosmic.GetSiteSettings` | lib/cosmic.ts:142-157 | Queries `findOne` on `site-settings` with no slug. Follows the lookup policy with "Failed to fetch site settings". |
| `Cosmic.NonObjectErrorsAlwaysThrow` | lib/cosmic.ts:10-27 | A non-object error (a string, null, a number, undefined) is never not-found: both query kinds throw. |
| `Cosmic.OnlyStatus404IsNotFound` | lib/cosmic.ts:22-27 | An object error without `status`, or whose status is anything but the number 404 (the string "404" included), makes both query kinds throw. |
| `ProjectCard.ImageUrl` | components/ProjectCard.tsx:9-12 | With a non-empty imgix URL, the result is that URL followed by exactly `?w=800&h=400&fit=crop&auto=format,compress`. Otherwise it is the fixed stock image. |
| `ProjectCard.StatusColor` | components/ProjectCard.tsx:14-16 | Green iff the status key is `active`, yellow iff it is `planning`, blue otherwise, including when there is no status. |
| `ProjectCard.CategoryColor` | components/ProjectCard.tsx:18-22 | Purple, blue, green and orange iff the key is arts, education, community and sports. Gray iff there is no category or the key is none of them. |
| `ProjectCard.CardTitle` | components/ProjectCard.tsx:33 | Heading and image alt: the metadata title whenever it is non-empty, and the object title whenever the metadata title is empty. Empty only when both are. |
| `ProjectCard.CharUnits` | components/ProjectCard.tsx:65-66 | The UTF-16 units of one character. A character of the Basic Multilingual Plane is one unit equal to its value. Any other is a high surrogate followed by a low surrogate, and the pair decodes back to the character. |
| `ProjectCard.Utf16` | components/ProjectCard.tsx:65-66 | A text has at least as many code units as characters and at most twice as many. |
| `ProjectCard.Utf16Append` | components/ProjectCard.tsx:65-66 | Encoding distributes over concatenation. |
| `ProjectCard.Utf16Bmp` | components/ProjectCard.tsx:65-66 | For text within the Basic Multilingual Plane, code units and characters coincide one to one. |
| `ProjectCard.ShownDescription` | components/ProjectCard.tsx:64-68 | Counting UTF-16 code units: a description longer than 120 units becomes its first 120 units then `...`, 123 units in all. A non-empty one of at most 120 units is shown unchanged. An empty one becomes "No description available.". The result is never longer than 123 units. |
| `ProjectCard.TruncationBoundary` | components/ProjectCard.tsx:65-67 | A description of exactly 120 code units is kept whole; one of 121 is cut and gets `...`. |
| `ProjectCard.CutSplitsSurrogatePair` | components/ProjectCard.tsx:65-66 | 119 letters followed by an emoji are 120 characters but 121 code units. So the text is cut, and its 120th unit is the emoji's high surrogate (0xD83D), left without its partner. |
| `ProjectCard.Decimal` | components/ProjectCard.tsx:84-88 | The count in the "+N more" chip is printed as decimal digits with no leading zero. |
| `ProjectCard.DecimalRoundTrip` | components/ProjectCard.tsx:84-88 | The printed digits read back as the count they were printed from. |
| `ProjectCard.YouthHouseChips` | components/ProjectCard.tsx:72-88 | The chips appear iff the list is present and non-empty. They show min(n, 2) labels, the first houses in order, each its name else its title. A `+(n-2) more` chip appears iff n > 2. |
| `ProjectCard.MoreChipCountsHidden` | components/ProjectCard.tsx:84-88 | The "+N more" text reads `+`, a number and ` more`, and that number plus the shown chips is the list length. |
| `ProjectCard.Dates` | components/ProjectCard.tsx:94-104 | The date line appears iff a start or an end date is set. Each part appears iff its date is set. The ` • ` separator appears iff both are. |
| `ProjectCard.RenderCard` | components/ProjectCard.tsx:30-107 | Heading and image alt are the metadata title, else the object title. The image is `ImageUrl`, the description `ShownDescription`, the chips `YouthHouseChips` and the date line `Dates`. The link is `/projects/` followed by the slug. Each badge appears iff its field is present, shows the field's value, and is coloured by `StatusColor` or `CategoryColor`. |
| `ContactForm.FormData.Set` | components/ContactForm.tsx:19-25 | The changed field takes the new value; the other two fields are unchanged. |
| `ContactForm.FormState.constructor` | components/ContactForm.tsx:11-17 | A new form has empty fields, is not submitting, and is idle. |
| `ContactForm.FormState.HandleChange` | components/ContactForm.tsx:19-25 | Only the named field changes. The flag and the status are untouched. |
| `ContactForm.FormState.SubmitStart` | components/ContactForm.tsx:27-29 | A submit starts only while the button is enabled (not submitting) and all three `required` fields are filled, as the form's inputs and disabled button demand. The flag is raised before the wait, and nothing else changes. |
| `ContactForm.FormState.SubmitResolve` | components/ContactForm.tsx:31-40 | The status becomes success and all three fields become empty. The flag is dropped and a reset timer is started. |
| `ContactForm.FormState.SubmitReject` | components/ContactForm.tsx:41-50 | The status becomes error and the fields keep their values. The flag is dropped and a reset timer is started. |
| `ContactForm.FormState.ResetTimerFire` | components/ContactForm.tsx:38-47 | The status becomes idle whatever it was, and nothing else changes. Every method keeps `Valid()`: the flag is up exactly while the one submission is in flight, and a status other than idle always has a reset timer pending. |
| `ContactForm.ResetFromAnyOutcome` | components/ContactForm.tsx:35-47 | A valid form whose status is success or error can always be reset: its invariant guarantees a pending timer. Firing it makes the status idle, keeps the fields and keeps the invariant. |
| `ContactForm.FormState.Button` | components/ContactForm.tsx:209-243 | The button of the current state is the one `ButtonFor` gives. |
| `ContactForm.ButtonFor` | components/ContactForm.tsx:209-243 | Disabled iff submitting. The text is "Sending..." iff submitting, whatever the status. Otherwise it is "Message Sent!" iff success, "Failed to Send - Try Again" iff error, and "Send Message" iff idle. |
| `ContactForm.SocialLinks` | components/ContactForm.tsx:123-152 | There is one link per non-empty network URL. Each link is labelled IG, FB or TW, and its href is that network's URL. The links come in the order Instagram, Facebook, Twitter. |
| `ContactForm.Contact` | components/ContactForm.tsx:53-155 | The email line appears iff the setting is non-empty, with href `mailto:` + email. The phone line likewise, with href `tel:` + phone. The social block appears iff `social_media` is present, and holds `SocialLinks` of it. |
| `InteractiveMap.TokenUsable` | components/InteractiveMap.tsx:19 | The token gate, shared by the effect and the render (line 133): a token is usable iff it is present, non-empty and not `pk.test`. |
| `InteractiveMap.Render` | components/InteractiveMap.tsx:130-158 | The fallback list is rendered iff the token is absent, empty or `pk.test`. It lists every house in input order, keyed by id and headed by its name else its title. The neighborhood is shown iff non-empty. |
| `InteractiveMap.Coordinate` | components/InteractiveMap.tsx:32-35 | A centre coordinate is `parseFloat` of the setting iff the setting is a non-empty string, else the default. |
| `InteractiveMap.Options` | components/InteractiveMap.tsx:31-43 | The centre comes from the settings when set, else 50.8476 / 4.3572, with longitude first. The zoom is `map_zoom` unless it is missing or 0, then 12, so it is never 0. |
| `InteractiveMap.ReplaceNewlines` | components/InteractiveMap.tsx:89 | No line feed remains. Each line feed adds three characters (`<br>` in place of one). A text without line feeds is unchanged. |
| `InteractiveMap.ReplaceNewlinesChar` | components/InteractiveMap.tsx:89 | A single line feed becomes exactly `<br>`; any other single character is kept. |
| `InteractiveMap.ReplaceNewlinesAppend` | components/InteractiveMap.tsx:89 | The rewrite of a concatenation is the concatenation of the rewrites. With `ReplaceNewlinesChar` this fixes the rewrite of every text. |
| `InteractiveMap.ReplaceNewlinesIdempotent` | components/InteractiveMap.tsx:89 | Rewriting twice equals rewriting once. |
| `InteractiveMap.PopupFor` | components/InteractiveMap.tsx:76-104 | Heading: name, else title. The neighborhood and `Ages: ` paragraphs appear iff their fields are non-empty. The address paragraph appears iff the address is non-empty, and holds the address with each line feed rewritten to `<br>`. The link is `/youth-houses/` followed by the slug. |
| `InteractiveMap.PopupHtml` | components/InteractiveMap.tsx:77-104 | The HTML is, in order and with nothing else: the opening tags, the heading verbatim with no escaping, the closing heading tag, then `<p>…</p>` for the neighborhood, the address and the ages, each only when present, and the "Learn More" link. An absent paragraph adds nothing to the length. |
| `InteractiveMap.HasCoordinates` | components/InteractiveMap.tsx:47 | The marker test: both the latitude and the longitude strings are non-empty. Whether they parse is not checked. |
| `InteractiveMap.MarkerFor` | components/InteractiveMap.tsx:48-116 | The marker of a house: its position and the HTML of its popup. What it states is proved in `MarkerPlacement`. |
| `InteractiveMap.Mappable` | components/InteractiveMap.tsx:46-47 | The houses that pass the marker test, in input order: there are never more of them than inputs. Which houses they are is proved in `MappableMembers`, and that input order is kept in `MappableAppend`. |
| `InteractiveMap.MappableMembers` | components/InteractiveMap.tsx:46-47 | A house is mappable iff it is in the input and both its latitude and longitude strings are non-empty. |
| `InteractiveMap.MappableAppend` | components/InteractiveMap.tsx:46-47 | Input order is kept: one more house at the end adds itself at the end iff it has both coordinates. |
| `InteractiveMap.MarkersFor` | components/InteractiveMap.tsx:46-117 | There is one marker per mappable house, so the marker count is the number of houses with both coordinates. |
| `InteractiveMap.MarkersForAppend` | components/InteractiveMap.tsx:46-117 | Markers are added in input order: one more house adds its marker at the end iff it has both coordinates. |
| `InteractiveMap.MarkerPlacement` | components/InteractiveMap.tsx:97-116 | A marker stands at `[parseFloat(longitude), parseFloat(latitude)]`, and its popup ends with the link to `/youth-houses/<slug>`. |
| `InteractiveMap.PresenceOnly` | components/InteractiveMap.tsx:47-49 | A house with latitude "abc" passes the component's own test, and the component hands the library a marker at the parse of "abc". |
| `InteractiveMap.MissingCoordinateExcluded` | components/InteractiveMap.tsx:47 | A house with an empty latitude or longitude adds no marker. |
| `InteractiveMap.MapView.constructor` | components/InteractiveMap.tsx:38-43 | A new map has the given centre and zoom, no markers, and is not removed. |
| `InteractiveMap.MapView.AddMarker` | components/InteractiveMap.tsx:113-116 | Appends one marker. |
| `InteractiveMap.MapView.Remove` | components/InteractiveMap.tsx:124-126 | Marks the map removed and keeps its markers. |
| `InteractiveMap.AddMarkers` | components/InteractiveMap.tsx:46-117 | The `forEach` loop leaves the new map with exactly `MarkersFor(houses)`. |
| `InteractiveMap.MapComponent.constructor` | components/InteractiveMap.tsx:11-13 | A new component has an empty ref, no pending load and no cleanup. |
| `InteractiveMap.MapComponent.RunEffect` | components/InteractiveMap.tsx:15-28 | With no usable token, no container, or a ref already set, nothing changes and no cleanup is left. Otherwise one library load is started, capturing this run's houses and settings, and a cleanup is left. The ref and the container are never changed here. |
| `InteractiveMap.MapComponent.LoadSucceeded` | components/InteractiveMap.tsx:28-121 | If the container is still attached, a fresh map with `Options(settings)` is stored in the ref and holds exactly `MarkersFor(houses)`, even if the run that started the load was cleaned up. After unmount the library rejects the null container, the `.catch` takes over, and the ref is unchanged. Either way the load stops being pending. |
| `InteractiveMap.MapComponent.LoadFailed` | components/InteractiveMap.tsx:119-121 | A failed load changes nothing but the list of pending loads: no map is created. |
| `InteractiveMap.MapComponent.Cleanup` | components/InteractiveMap.tsx:123-127 | The map the ref holds, if any, is removed. The ref still holds it afterwards. |
| `InteractiveMap.MapComponent.Unmount` | components/InteractiveMap.tsx:123-127 | Unmounting runs the pending cleanup, if any, and detaches the container. Loads still pending stay pending. The ref keeps its map, and that map is removed iff a cleanup was pending or it was already removed. |

## Left out

- The map library: loading it dynamically, the marker DOM element with its inline CSS and
  hover listeners, the popup options (offset, close button), the map style URL and setting
  the access token. `MapView` keeps only options, markers and the removed flag.
- Inline styles and indentation inside the popup HTML. `PopupHtml` keeps the tags and the
  text.
- `parseFloat` and floating point. A coordinate is kept as "the parse of this text", so
  the model says nothing about NaN or about coordinate ranges. A zoom is a `real`, so a NaN
  zoom (which would also fall back to 12) is not represented.
- InteractiveMap.AddMarkers: assumes the map library accepts every marker position. The
  library rejects a NaN position and a latitude outside ±90. Its throw ends the `forEach`
  early: that house and every later one get no marker, the `.catch` logs the error, and the
  map stays in the ref with the earlier markers only. `MarkersFor` and `AddMarkers`
  describe the run in which every position is accepted.
- InteractiveMap.MapComponent.LoadSucceeded: assumes the library accepts the centre. A
  centre setting that parses to NaN makes the map constructor throw into the `.catch`, so
  no map is built. The contract describes the run in which the centre is accepted.
- The container element: the model records only whether the ref holds one. It is attached
  from construction until `Unmount`, and a component built without one never starts a load.
  That the map library's constructor throws on a null container is the library's behaviour,
  not this code's. `LoadSucceeded` relies on it to send a post-unmount load to the `.catch`.
- Lengths other than the description cut count Unicode scalar values, not UTF-16 code
  units. This covers `ReplaceNewlines` and the lengths in the `PopupFor` and `PopupHtml`
  contracts. No decision of the code depends on those lengths.
- ContactForm.FormState.SubmitStart: the browser's format check of the `type="email"`
  input is not modelled. The model lets any non-empty email through, where the browser
  also blocks a submit whose email is malformed.
- Timing: the 2-second simulated submission, the 5-second reset timers, `preventDefault`,
  and the order in which concurrent timers fire. These are discrete events here. The
  simulated submission in the code always resolves, so the reject path is reachable only if
  real submission logic is added. It is modelled anyway.
- `console.error` logging, the SDK client construction, and the `props`/`depth` options of
  each query. `'status' in error` also finds inherited properties; the model's objects
  have only their own properties.
- `toLocaleDateString`: the date formatter is a parameter of `ProjectCard.Dates`.
- The untyped `metadata` bag of a generic CMS object. The guards never read it.
- Optional chaining on `metadata` itself: the model takes every record to have its metadata.
- CSS utility classes other than the badge colours, `<style jsx>` blocks, animations, the
  navigation scroll listener and menu toggle, and the purely presentational pages and
  sections (footer, hero, projects section, page routes, layout).
