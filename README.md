# RIPE SDK client core, modelled in Dafny

This project models the client side of the RIPE SDK. The SDK is a JavaScript library that
configures a product, such as a shoe, part by part and shows it in a 360° viewer. The model
covers these pieces:

- **Frame addressing.** Keys of the form `view-position` (`getFrameKey`, `parseFrameKey`,
  `frameNameHack`).
- **The customisation query.** `_getQuery`, and the service URLs built from it (configuration,
  defaults, combinations, price, compose image, mask).
- **The product instance `ripe.Ripe`.** Its option defaulting, its parts object with the
  setters `setPart`, `setParts`, `_setPart` and `setInitials`, `update`, and the frame table of
  `getFrames`. Also the `Observable` event registry it extends and the `SyncPlugin` rules,
  which keep groups of parts in one material and colour.
- **The minified build's variants.** These are `setPart`, `setParts` with `_partsList`, and
  `_getImageURL` without the crop parameter. The setters create unknown parts and name the
  changed part in the "part" event.
- **The frame engine** of the two viewers, `ripe.Configurator` in ripe.js and `ripe.Config` in
  config.part.js. It covers `update` with its "unique" key, `changeFrame` (range validation,
  last position per view, step animation), `_loadFrame` with its per-image URL cache,
  `_drawFrame`, which flips between two canvases, `_preload` with its generation-tagged work
  list, and the drag and mask hit-testing handlers.
- **The configuration API's request options.** `_getConfigInfoOptions`, `configDku` and
  `configResolve`.
- **The tag predicates** `hasCustomization`, `hasPersonalization` and `hasSize`.

JavaScript semantics are written out explicitly:

- `Js.Rem` is `%`, which truncates toward zero.
- `Js.Trunc` and `Js.ParseInt` are `parseInt`.
- `Js.ToNumber` is the coercion `==` applies to a string.
- `Js.NatToString` is `String(n)`.
- `Split` and `Join` are the string methods.
- `Dicts.Dict` is a plain object: an association list in insertion order.

An unset `dataset` entry and the values `null`, `undefined` and `""` are all `""` wherever the
source only looks at truthiness or `||`.

Asynchrony is made explicit. An image load, a mask load, the end of an animation and the
firing of a timer are events the environment delivers. The callbacks the source passes around
are values of the `Engine.Cont` datatype, which `Engine.RunCont` runs. Each engine operation
is a function of the engine state `Engine.Conf`. The classes that hold that state are these:

- `FrameEngine.Element`
- `Configurator.Configurator`
- `ConfigPart.Config`
- `Product.Ripe`
- `Events.Observable`

Each method of these classes is proved to leave exactly the state that the matching function
describes. The lemmas state what the source promises about those functions.

## Model

In the source column, `ripe.js` is `src/python/ripe_demo/static/js/ripe.js`, the minified build
is `src/js/ripe-min.js` and `ripe.Config` is `src/js/visual/config.part.js`.

| member | source | states |
|---|---|---|
| `FrameKeys.ParseFrameKey` | src/python/ripe_demo/static/js/ripe.js:452-455 | splitting a key at the token always gives at least one piece |
| `FrameKeys.ParseGetFrameKey` | src/python/ripe_demo/static/js/ripe.js:447-455 | `parseFrameKey(getFrameKey(v, p, t), t)` is `[v, p]` for any token when neither part contains the token's first character |
| `FrameKeys.FrameKeyRoundTrip` | src/python/ripe_demo/static/js/ripe.js:447-455 | the key of a numeric position parses back to `[view, String(position)]`, and `parseInt` of the second piece is the position |
| `FrameKeys.FrameKeyInjective` | src/python/ripe_demo/static/js/ripe.js:447-450 | two frames with dash-free views have the same key only if view and position are equal |
| `FrameKeys.FrameNameOfKey` | src/python/ripe_demo/static/js/ripe.js:457-466 | `frameNameHack` of a key is the position for the "side" view and the view name for every other view |
| `FrameKeys.GetFrameKey` | src/python/ripe_demo/static/js/ripe.js:447-450 | definition of `getFrameKey`: the view, the token ("-" by default) and the position; `ParseGetFrameKey` and `FrameKeyInjective` state what it keeps |
| `FrameKeys.FrameNameHack` | src/python/ripe_demo/static/js/ripe.js:457-466 | definition of `frameNameHack`; `FrameNameOfKey` states what it gives for a key |
| `Js.Rem` | src/python/ripe_demo/static/js/ripe.js:1661 | JavaScript `%` by a positive count: strictly between `-n` and `n`, with the sign of the dividend |
| `Js.RemWrapIsEuclidean` | src/python/ripe_demo/static/js/ripe.js:1661-1662 | adding `n` to a negative `%` result gives the mathematical remainder |
| `Js.Trunc` | src/python/ripe_demo/static/js/ripe.js:1661 | `parseInt` of a number truncates toward zero: within 1 of the value, on the zero side |
| `Js.ParseIntNatToString` | src/python/ripe_demo/static/js/ripe.js:932 | `parseInt(String(n))` is `n` |
| `Js.ToNumberNatToString` | src/js/visual/config.part.js:168 | comparing with `==` coerces `String(n)` back to `n` |
| `Js.NatToStringInjective` | src/python/ripe_demo/static/js/ripe.js:955 | distinct positions are stored as distinct strings |
| `Js.JoinSplit` | src/python/ripe_demo/static/js/ripe.js:452-455 | joining the pieces of `split(sep)` with `sep` gives back the string |
| `Js.SplitJoin` | src/python/ripe_demo/static/js/ripe.js:447-455 | splitting pieces joined with a separator they do not contain gives back the pieces |
| `Query.GetQuery` | src/python/ripe_demo/static/js/ripe.js:595-630 | the loop that pushes fields into the buffer and joins them with "&" computes `Query`: brand, model, variant, frame, one `p=` field per part, engraving, country, currency, each only when truthy |
| `Query.Query` | src/python/ripe_demo/static/js/ripe.js:595-630 | definition of the string `_getQuery` returns; `QuerySplitsIntoFields`, `CompletePartListed` and `IncompletePartIgnored` state its fields |
| `Query.ConfigURL` | src/python/ripe_demo/static/js/ripe.js:632-641 | definition of `_getConfigURL`; `ConfigURLRoundTrip` states what it names |
| `Query.PriceURL` | src/python/ripe_demo/static/js/ripe.js:643-646 | definition of `_getPriceURL`; `PriceURLCarriesQuery` states its query |
| `Query.DefaultsURL` | src/python/ripe_demo/static/js/ripe.js:648-655 | definition of `_getDefaultsURL`; `DefaultsURLRoundTrip` states what it names |
| `Query.CombinationsURL` | src/python/ripe_demo/static/js/ripe.js:657-665 | definition of `_getCombinationsURL`; `CombinationsURLRoundTrip` states what it names |
| `Query.ImageURL` | src/python/ripe_demo/static/js/ripe.js:667-681 | definition of `_getImageURL`; `ImageURLDistinguishesFrames` states that it tells frames apart |
| `Query.MaskURL` | src/python/ripe_demo/static/js/ripe.js:683-691 | definition of `_getMaskURL`; `MaskURLIgnoresInstanceParts` states which parts it uses |
| `Query.IncompletePartIgnored` | src/python/ripe_demo/static/js/ripe.js:612-620 | a part without a material or a colour leaves the query as if it were absent |
| `Query.CompletePartListed` | src/python/ripe_demo/static/js/ripe.js:612-621 | every part with both a material and a colour contributes its `p=name:material:color` field |
| `Query.QuerySplitsIntoFields` | src/python/ripe_demo/static/js/ripe.js:608-629 | when no value contains "&", splitting the query at "&" gives back exactly the fields, in order |
| `Query.QueryDistinguishesFrames` | src/python/ripe_demo/static/js/ripe.js:602-611 | two different frame options give two different queries |
| `Query.ImageURLDistinguishesFrames` | src/python/ripe_demo/static/js/ripe.js:667-681 | two frames of one product have different compose URLs |
| `Query.MaskURLIgnoresInstanceParts` | src/python/ripe_demo/static/js/ripe.js:683-691 | the mask URL is built from `options.parts` or `{}`, never from the instance's parts |
| `Query.ModelPathSplits` | src/python/ripe_demo/static/js/ripe.js:636 | the model path splits at "/" into "brands", brand, "models", model and the leaf, and has no "?" |
| `Query.ConfigURLRoundTrip` | src/python/ripe_demo/static/js/ripe.js:632-641 | after the base URL, the configuration URL names the brand and model in effect, and has a "?variant=" query exactly when a variant is in effect |
| `Query.DefaultsURLRoundTrip` | src/python/ripe_demo/static/js/ripe.js:648-655 | the same for the defaults URL |
| `Query.CombinationsURLRoundTrip` | src/python/ripe_demo/static/js/ripe.js:657-665 | the combinations URL names brand and model; its query is "use_name=1" or "use_name=0", then the variant exactly when one is in effect |
| `Query.PriceURLCarriesQuery` | src/python/ripe_demo/static/js/ripe.js:643-646 | the price URL is the base URL, "config/price?" and the query, whose fields split back out |
| `Events.IndexOfCallback` | src/python/ripe_demo/static/js/ripe.js:181 | `indexOf` is -1 exactly when the callback is absent, and otherwise its first position |
| `Events.RemoveFirst` | src/python/ripe_demo/static/js/ripe.js:181-186 | the splice removes one occurrence when present: the multiset loses one copy, and an absent callback leaves the list alone |
| `Events.RemoveAfterAdd` | src/python/ripe_demo/static/js/ripe.js:168-187 | binding a new callback and unbinding it restores the list |
| `Events.RemoveFirstKeepsLater` | src/python/ripe_demo/static/js/ripe.js:181-186 | unbinding removes only the earliest binding; the later ones keep their order |
| `Events.Observable.constructor` | src/python/ripe_demo/static/js/ripe.js:164-166 | a new registry has no bound events |
| `Events.Observable.AddCallback` | src/python/ripe_demo/static/js/ripe.js:168-172 | the callback is appended to its event's list, and no other event changes |
| `Events.Observable.RemoveCallback` | src/python/ripe_demo/static/js/ripe.js:174-187 | without a callback the event is deleted; an absent callback changes nothing; otherwise its first binding is removed |
| `Events.Observable.RunCallbacks` | src/python/ripe_demo/static/js/ripe.js:189-195 | the callbacks run are exactly the event's list, in binding order |
| `Product.UseFlagOff` | src/python/ripe_demo/static/js/ripe.js:229-234 | a request is skipped only when asked: `useX` is false, or unset while `noX` is true; with neither option given it is made |
| `Product.StripHash` | src/python/ripe_demo/static/js/ripe.js:241 | a colour without "#" is kept as it is |
| `Product.StripHashFirst` | src/python/ripe_demo/static/js/ripe.js:241 | only the first "#" is removed |
| `Product.Reference` | src/python/ripe_demo/static/js/ripe.js:738 | a rule copies from the changed part when the rule names it, and otherwise from its first part |
| `Product.CopyToKeys` | src/python/ripe_demo/static/js/ripe.js:744-748 | copying a value over a rule's parts adds and removes no part |
| `Product.CopyToFails` | src/python/ripe_demo/static/js/ripe.js:744-748 | the copy throws `TypeError` exactly when a part of the rule is missing from the parts object |
| `Product.CopyToAgrees` | src/python/ripe_demo/static/js/ripe.js:744-748 | after a successful copy every part of the rule holds the value, and every other part is untouched |
| `Product.SyncRuleAgrees` | src/python/ripe_demo/static/js/ripe.js:733-749 | after a rule ran, each of its parts holds the reference part's former value, and the rest are untouched |
| `Product.SyncRuleFails` | src/python/ripe_demo/static/js/ripe.js:733-749 | a rule throws exactly when one of its parts is missing |
| `Product.SyncRuleIdempotent` | src/python/ripe_demo/static/js/ripe.js:733-749 | running a rule twice is the same as running it once |
| `Product.SyncSingle` | src/python/ripe_demo/static/js/ripe.js:733-750 | the handler over a single rule is that rule |
| `Product.CopyTo` | src/python/ripe_demo/static/js/ripe.js:744-748 | definition of the copy loop of the sync handler; `CopyToKeys`, `CopyToFails` and `CopyToAgrees` state its effect |
| `Product.SyncRule` | src/python/ripe_demo/static/js/ripe.js:733-749 | definition of one rule of the sync handler; `SyncRuleAgrees`, `SyncRuleFails` and `SyncRuleIdempotent` state its effect |
| `Product.SyncAll` | src/python/ripe_demo/static/js/ripe.js:732-751 | definition of the sync handler over all rules; `SyncSingle` relates it to one rule |
| `Product.SetPartStep` | src/python/ripe_demo/static/js/ripe.js:387-393 | an unknown part throws `TypeError` with nothing changed; otherwise "part" is triggered once, with a value that carries no name |
| `Product.ApplyTriplesAdvance` | src/python/ripe_demo/static/js/ripe.js:288-291 | one iteration of the `setParts` loop either ends the run with its exception or continues with the rest of the triples |
| `Product.ApplyTriples` | src/python/ripe_demo/static/js/ripe.js:288-291 | definition of the `setParts` loop over triples; `ApplyTriplesAdvance` states one iteration |
| `Product.ApplyTriplesSettled` | src/python/ripe_demo/static/js/ripe.js:287-291 | with no rules bound, re-applying triples that the parts already hold changes no part and throws nothing, and triggers one nameless "part" event per triple, in order |
| `Product.FacesTableGet` | src/python/ripe_demo/static/js/ripe.js:316-320 | every face maps to 1 frame, and nothing else is in the face table |
| `Product.FramesTableGet` | src/python/ripe_demo/static/js/ripe.js:311-329 | in the frame table, "side" holds the configuration's frame count, each other face 1, and any other name nothing |
| `Product.FramesTable` | src/python/ripe_demo/static/js/ripe.js:311-329 | definition of the frame table `getFrames` builds; `FramesTableGet` states its entries |
| `Product.Ripe.constructor` | src/python/ripe_demo/static/js/ripe.js:214-270 | every option takes its default; the defaults are requested only without parts and when in use; the instance is ready exactly when it was given a non-empty parts object |
| `Product.Ripe.Update` | src/python/ripe_demo/static/js/ripe.js:354-367 | the children are updated; "update" follows when ready, and a price request when ready and prices are in use; no state changes |
| `Product.Ripe.PartsLoaded` | src/python/ripe_demo/static/js/ripe.js:250-256 | the loaded parts, or the ones already held, become the parts; the instance is ready, updates and triggers "parts" |
| `Product.Ripe.Sync` | src/python/ripe_demo/static/js/ripe.js:732-751 | the handler's two loops compute `SyncAll` over the bound rules in order |
| `Product.Ripe.SetPartValue` | src/python/ripe_demo/static/js/ripe.js:387-393 | the parts and events are those of `SetPartStep` with the bound rules |
| `Product.Ripe.SetPart` | src/python/ripe_demo/static/js/ripe.js:278-285 | `_setPart`, then, unless `noUpdate` or an exception, an update and a "parts" event |
| `Product.Ripe.SetPartValues` | src/python/ripe_demo/static/js/ripe.js:288-291 | the loop computes `ApplyTriples`, stopping at the first exception |
| `Product.Ripe.SetParts` | src/python/ripe_demo/static/js/ripe.js:287-299 | an array of triples is applied in order; a parts object has no `length` and applies nothing |
| `Product.Ripe.SetInitials` | src/python/ripe_demo/static/js/ripe.js:301-309 | initials and engraving are replaced, and an update follows unless `noUpdate` |
| `Product.Ripe.RegisterSync` | src/python/ripe_demo/static/js/ripe.js:727-755 | the rules are bound; the re-submitted copy of the parts is an object, so no part changes; the instance updates and triggers "parts" |
| `Product.Ripe.GetFrames` | src/python/ripe_demo/static/js/ripe.js:311-329 | `options.frames` when given, and otherwise the frame table of the configuration |
| `Product.SyncRevertsChange` | src/python/ripe_demo/static/js/ripe.js:387-393 | as written, changing a rule member other than its first is undone: the part gets the first part's value again |
| `ProductMin.SetPartMinStep` | src/js/ripe-min.js:18-19 | "part" carries the part's name; without rules the part is created or replaced with the new material and colour |
| `ProductMin.PartsTriples` | src/js/ripe-min.js:24-25 | `_partsList` gives one `[name, material, color]` per part, in key order |
| `ProductMin.PartsList` | src/js/ripe-min.js:24-25 | the loop over the object's keys computes `PartsTriples` |
| `ProductMin.SettledTriples` | src/js/ripe-min.js:19 | with no rules, re-applying triples that the parts already hold changes nothing |
| `ProductMin.PartsListRoundTrip` | src/js/ripe-min.js:19-25 | listing the parts and applying the list back, with no rules, gives the same parts |
| `ProductMin.SyncKeepsChange` | src/js/ripe-min.js:40 | with the name in the event, a change to any member of a rule spreads to every member |
| `ProductMin.TriplesLeaveRuleAgreeing` | src/js/ripe-min.js:40 | after a run of `setParts` with one rule bound, every part of the rule holds the same value |
| `ProductMin.ApplyTriplesMinAdvance` | src/js/ripe-min.js:19 | one iteration of the minified `setParts` loop ends the run or continues with the rest |
| `ProductMin.ApplyTriplesMin` | src/js/ripe-min.js:19 | definition of the minified `setParts` loop; `ApplyTriplesMinAdvance`, `SettledTriples` and `PartsListRoundTrip` state its effect |
| `ProductMin.SetPartsMin` | src/js/ripe-min.js:19-21 | triples are applied as given, and a parts object is first listed with `_partsList` |
| `ProductMin.SetPartValueMin` | src/js/ripe-min.js:18-19 | the parts and events are those of `SetPartMinStep` with the bound rules |
| `ProductMin.SetPartMin` | src/js/ripe-min.js:18-19 | the minified `setPart`, followed by an update and "parts" unless `noUpdate` |
| `ProductMin.SetPartValuesMin` | src/js/ripe-min.js:19 | the loop computes `ApplyTriplesMin` |
| `ProductMin.PartsLoadedMin` | src/js/ripe-min.js:18 | the loaded parts are listed and applied over the current parts; when none throws, the instance becomes ready and updates |
| `ProductMin.RegisterSyncMin` | src/js/ripe-min.js:40 | the rules are bound and a copy of the parts is applied back part by part, so the rules run; what is emitted is the events of that application followed, once it completes, by the update and the "parts" event |
| `ProductMin.ImageParamsMin` | src/js/ripe-min.js:35 | the minified image parameters are those of ripe.js without crop |
| `ProductMin.ImageURLMin` | src/js/ripe-min.js:35 | the minified compose URL is that of ripe.js with crop off |
| `HitTest.Insert` | src/python/ripe_demo/static/js/ripe.js:827 | inserting into a sorted list keeps it sorted and adds exactly the new name |
| `HitTest.SortStrings` | src/python/ripe_demo/static/js/ripe.js:826-827 | `sort()` gives a sorted permutation of the default part names |
| `HitTest.SortedPartsListed` | src/python/ripe_demo/static/js/ripe.js:826-827 | a part is in the sorted list exactly when it is a default part |
| `HitTest.BackgroundSelectsNothing` | src/python/ripe_demo/static/js/ripe.js:1508-1547 | mask index 0 selects nothing on a click and lowlights on an idle hover |
| `HitTest.ClickSelects` | src/python/ripe_demo/static/js/ripe.js:1508-1525 | an idle click on index k selects `partsList[k-1]` unless that part is hidden, in which case it does nothing |
| `HitTest.HoverMatchesClick` | src/python/ripe_demo/static/js/ripe.js:1527-1547 | away from the background and with no button held, a hover does what a click on the same index does |
| `HitTest.ChosenPartIndex` | src/js/visual/config.part.js:696-705 | `_chosenPart` gives the indexed part, `null` past the end of the list, and lowlights during a drag |
| `HitTest.Click` | src/python/ripe_demo/static/js/ripe.js:1508-1525 | definition of the canvases' click handler; `BackgroundSelectsNothing` and `ClickSelects` state its choices |
| `HitTest.Hover` | src/python/ripe_demo/static/js/ripe.js:1527-1547 | definition of the canvases' hover handler; `HoverMatchesClick` relates it to a click |
| `HitTest.ChosenPart` | src/js/visual/config.part.js:680-706 | definition of `ripe.Config._chosenPart`; `ChosenPartIndex` states its choices |
| `Drag.Wrap` | src/python/ripe_demo/static/js/ripe.js:1661-1662 | the wrapped position lies in `[0, n)` |
| `Drag.WrapIsMod` | src/python/ripe_demo/static/js/ripe.js:1661-1662 | the truncating remainder, plus `n` when negative, is the mathematical remainder |
| `Drag.DragViewHasFrames` | src/python/ripe_demo/static/js/ripe.js:1647-1656 | the drag keeps the current view unless the product has frames for the requested one |
| `Drag.SmallTiltKeepsView` | src/python/ripe_demo/static/js/ripe.js:1647-1656 | a vertical drag within the threshold changes neither the view nor `referenceY` |
| `Drag.VerticalRoundTrip` | src/python/ripe_demo/static/js/ripe.js:1647-1653 | from "side", a drag past the threshold one way and then the other way returns to "side" |
| `Drag.DragPositionInRange` | src/python/ripe_demo/static/js/ripe.js:1659-1662 | on the same view with `n > 0` frames, the position is `trunc(base - shift) mod n`, which lies in `[0, n)` |
| `Drag.DragPositionWithoutFrames` | src/python/ripe_demo/static/js/ripe.js:1660-1661 | without a positive frame count the position is `NaN` |
| `Drag.DragResumesView` | src/python/ripe_demo/static/js/ripe.js:1664-1668 | on a view change the drag resumes at `_lastFrame[nextView]`, or at 0 |
| `Drag.DragFrame` | src/python/ripe_demo/static/js/ripe.js:1623-1672 | definition of the frame `_parseDrag` asks for; the `Drag` lemmas above state its view and position |
| `Engine.ViewKeys` | src/python/ripe_demo/static/js/ripe.js:1348-1358 | the keys of one view's frames from index `first` on, in index order |
| `Engine.FrameList` | src/python/ripe_demo/static/js/ripe.js:1348-1360 | the two push loops of `_preload` enumerate every frame of every view, leaving out index 0 while no position is shown |
| `Engine.FrameKeysHas` | src/python/ripe_demo/static/js/ripe.js:1348-1360 | a key is on the work list exactly when it names a frame of some view at an index from `first` on |
| `Engine.AllFrameKeysHas` | src/python/ripe_demo/static/js/ripe.js:1348-1360 | every frame of the product is on the full list, and nothing else is |
| `Engine.PreloadFirst` | src/python/ripe_demo/static/js/ripe.js:1343-1354 | definition of the first index `_preload` takes: 1 only while no position is shown (see "## Left out") |
| `Engine.DrainOrder` | src/python/ripe_demo/static/js/ripe.js:1361-1402 | `pop` on the reversed list takes the frames in enumeration order |
| `Engine.LoadKey` | src/python/ripe_demo/static/js/ripe.js:1183-1187 | definition of the key `_loadFrame` builds from its defaulted view and position |
| `Engine.FrameURL` | src/python/ripe_demo/static/js/ripe.js:1207-1213 | definition of the image URL `_loadFrame` requests |
| `Engine.MaskFrameURL` | src/python/ripe_demo/static/js/ripe.js:1270-1278 | definition of the mask URL `_loadMask` requests |
| `Engine.AnimationTime` | src/python/ripe_demo/static/js/ripe.js:1329 | definition of the length of an animated draw; `ConfigAnimationTime` states it for `ripe.Config` |
| `Engine.Unmark` | src/python/ripe_demo/static/js/ripe.js:1371 | removing the "preloading" class keeps the set of images |
| `Engine.Mark` | src/python/ripe_demo/static/js/ripe.js:1364-1391 | `mark` keeps the view, the position, the saved positions, the keys, the generation and the image sets, and only appends to what was emitted; the work list is unchanged |
| `Engine.RunCont` | src/python/ripe_demo/static/js/ripe.js:1180-1446 | a callback keeps the view, the position, the saved positions, the keys, the generation and the image sets, and only appends to what was emitted; it never grows the work list and throws only `TypeError` |
| `Engine.Render` | src/python/ripe_demo/static/js/ripe.js:1393-1436 | `render` keeps the view, the position, the saved positions, the keys, the generation and the image sets, and only appends to what was emitted; it never grows the work list and throws only `TypeError` |
| `Engine.LoadMask` | src/python/ripe_demo/static/js/ripe.js:1256-1292 | `_loadMask` keeps the view, the position, the saved positions, the keys, the generation and the image sets, and only appends to what was emitted; the work list and the frame images are unchanged |
| `Engine.LoadFrame` | src/python/ripe_demo/static/js/ripe.js:1180-1254 | `_loadFrame` keeps the view, the position, the saved positions, the keys, the generation and the image sets, and only appends to what was emitted; it never grows the work list and throws only `TypeError` |
| `Engine.DrawFrame` | src/python/ripe_demo/static/js/ripe.js:1301-1340 | `_drawFrame` keeps the view, the position, the saved positions, the keys, the generation and the image sets, and only appends to what was emitted; it never grows the work list and throws only `TypeError` |
| `Engine.Preload` | src/python/ripe_demo/static/js/ripe.js:1342-1446 | `_preload` increments the generation and sets the work list to the reversed enumeration; it marks the element "preload" and changes nothing else listed |
| `Engine.Reloaded` | src/python/ripe_demo/static/js/ripe.js:913-926 | the reload keeps the view, the position and the image sets, and only appends to what was emitted |
| `Engine.LaidOut` | src/python/ripe_demo/static/js/ripe.js:1113-1178 | after `_initLayout` there is one frame image and one mask image per frame of the product, and the canvases are blank |
| `Engine.ImageLoaded` | src/python/ripe_demo/static/js/ripe.js:1238-1248 | an image's `onload` keeps the view, the position, the saved positions, the keys, the generation and the image sets, and only appends to what was emitted |
| `Engine.MaskLoaded` | src/python/ripe_demo/static/js/ripe.js:1276-1284 | a mask's `onload` keeps the view, the position, the saved positions, the keys, the generation and the image sets, and only appends to what was emitted |
| `Engine.AnimationFinished` | src/python/ripe_demo/static/js/ripe.js:1327-1338 | the end of an animation keeps the view, the position, the saved positions, the keys, the generation and the image sets, and only appends to what was emitted |
| `Engine.PointFrontMask` | src/python/ripe_demo/static/js/ripe.js:1066-1075 | the corrected highlight of the Findings: the front mask holds the new URL and this highlight's listener only, replacing the earlier one; the view, the position, the saved positions, the keys, the generation and the image sets are kept |
| `Engine.PointFrontMaskAsWritten` | src/python/ripe_demo/static/js/ripe.js:1066-1075 | as written, the new listener is appended after every earlier one |
| `Engine.HighlightEvents` | src/python/ripe_demo/static/js/ripe.js:1066-1070 | a load of the front mask triggers one "highlighted_part" per listener, in order |
| `Engine.DrawMask` | src/python/ripe_demo/static/js/ripe.js:1294-1299 | `_drawMask` puts the frame's mask on the mask canvas and keeps the view, the position, the saved positions, the keys, the generation and the image sets, and only appends to what was emitted |
| `Engine.TakeTimer` | src/python/ripe_demo/static/js/ripe.js:1011-1013 | a firing timer leaves the queue; the others keep their order |
| `Engine.StaleGeneration` | src/python/ripe_demo/static/js/ripe.js:1364-1398 | `mark`, `render` and the chained callbacks of a superseded generation change nothing |
| `Engine.MarkLoaded` | src/python/ripe_demo/static/js/ripe.js:1379-1390 | a current `mark` triggers "loaded", and lifts the preloading and drag locks, exactly when no image is preloading and the work list is empty |
| `Engine.PreloadSupersedes` | src/python/ripe_demo/static/js/ripe.js:1343-1362 | after `_preload`, `mark` and `render` of every earlier generation are no-ops; the work list holds exactly the product's frames from the first index preloaded; a render timer is queued exactly when that list is not empty |
| `Engine.MaskFirst` | src/python/ripe_demo/static/js/ripe.js:1205 | the configurator loads the frame's mask first and `ripe.Config` loads none; either way the view, the position, the keys, the work list and the images are kept |
| `Engine.RedundantLoad` | src/python/ripe_demo/static/js/ripe.js:1225-1236 | for both viewers, after the configurator's mask load, an image already recording the URL is not requested again; without drawing the callback runs at once; with drawing the frame is drawn only if the image has loaded |
| `Engine.FreshLoad` | src/python/ripe_demo/static/js/ripe.js:1238-1253 | for both viewers, after the configurator's mask load, a new URL is recorded, the image is marked not loaded, one request is issued, and the callback waits for `onload` |
| `Engine.LoadedImageServesAgain` | src/python/ripe_demo/static/js/ripe.js:1225-1253 | for both viewers, once the requested image has loaded, loading the frame again requests nothing |
| `Engine.DrawFlips` | src/python/ripe_demo/static/js/ripe.js:1305-1312 | the frame is drawn on the canvas not marked visible; exactly that canvas becomes visible, and the other keeps its image |
| `Engine.UnanimatedDraw` | src/python/ripe_demo/static/js/ripe.js:1313-1321 | without animation the target is opaque, the other canvas transparent, and the callback runs at once |
| `Engine.AnimatedDrawWaits` | src/python/ripe_demo/static/js/ripe.js:1322-1339 | an animated draw of positive length leaves the callback to the animation's end, which replaces any pending one |
| `Engine.ConfigAnimationTime` | src/js/visual/config.part.js:406 | `ripe.Config` animates for 0 in "immediate" mode and for 500 otherwise |
| `Engine.FrontMaskEvents` | src/python/ripe_demo/static/js/ripe.js:1066-1071 | one load of the front mask appends one "highlighted_part" per listener, for that listener's part |
| `Engine.StaleHighlightAsWritten` | src/python/ripe_demo/static/js/ripe.js:1066-1075 | as written, the mask load of a second highlight also triggers "highlighted_part" for the first part |
| `Engine.HighlightOnce` | src/python/ripe_demo/static/js/ripe.js:1066-1075 | with the intended removal, the load triggers "highlighted_part" for the last part only |
| `FrameEngine.Element.constructor` | src/python/ripe_demo/static/js/ripe.js:1113-1178 | the element starts with nothing drawn or loaded |
| `FrameEngine.Element.Mark` | src/python/ripe_demo/static/js/ripe.js:1364-1391 | leaves the state `Engine.Mark` describes |
| `FrameEngine.Element.RunCont` | src/python/ripe_demo/static/js/ripe.js:1380-1402 | runs a callback as `Engine.RunCont` describes |
| `FrameEngine.Element.Render` | src/python/ripe_demo/static/js/ripe.js:1393-1436 | leaves the state `Engine.Render` describes |
| `FrameEngine.Element.LoadMask` | src/python/ripe_demo/static/js/ripe.js:1256-1292 | leaves the state `Engine.LoadMask` describes |
| `FrameEngine.Element.LoadFrame` | src/python/ripe_demo/static/js/ripe.js:1180-1254 | leaves the state `Engine.LoadFrame` describes |
| `FrameEngine.Element.DrawFrame` | src/python/ripe_demo/static/js/ripe.js:1301-1340 | leaves the state `Engine.DrawFrame` describes |
| `FrameEngine.Element.Preload` | src/python/ripe_demo/static/js/ripe.js:1342-1446 | leaves the state `Engine.Preload` describes, with the work list built by the push loops |
| `FrameEngine.Element.Reload` | src/python/ripe_demo/static/js/ripe.js:913-926 | loads and draws the frame shown, and preloads when needed, as `Engine.Reloaded` describes |
| `FrameEngine.Element.ImageLoaded` | src/python/ripe_demo/static/js/ripe.js:1238-1248 | leaves the state `Engine.ImageLoaded` describes |
| `FrameEngine.Element.MaskLoaded` | src/python/ripe_demo/static/js/ripe.js:1276-1284 | leaves the state `Engine.MaskLoaded` describes |
| `FrameEngine.Element.AnimationFinished` | src/python/ripe_demo/static/js/ripe.js:1327-1338 | leaves the state `Engine.AnimationFinished` describes |
| `FrameEngine.Element.FrontMaskLoaded` | src/python/ripe_demo/static/js/ripe.js:1052-1071 | runs the listeners in the order they were added |
| `Configurator.UseMasksOn` | src/python/ripe_demo/static/js/ripe.js:799-800 | masks are used exactly when asked for: `useMasks` is true, or unset while `noMasks` is false |
| `Configurator.SettingsOf` | src/python/ripe_demo/static/js/ripe.js:789-798 | the configurator's engine locks drags with "no-drag" and "animating", and "no-drag" is one of its locks; width and height default to 1000 |
| `Configurator.Updated` | src/python/ripe_demo/static/js/ripe.js:874-927 | `update` keeps the view, the position and the image sets, only appends to what was emitted, and throws only `TypeError` |
| `Configurator.Jumped` | src/python/ripe_demo/static/js/ripe.js:985-1016 | a change without a duration triggers "changed_frame" with the frame shown and hands no duration to `update` |
| `Configurator.Stepped` | src/python/ripe_demo/static/js/ripe.js:969-1016 | a change with a duration moves one frame forward modulo the count; another step follows exactly when that frame is not the target |
| `Configurator.FrameMoved` | src/python/ripe_demo/static/js/ripe.js:929-998 | definition of the part of `changeFrame` before `update`; `ChangeFrameRange`, `MoveJumps` and `MoveStepsForward` state its effect |
| `Configurator.FrameChanged` | src/python/ripe_demo/static/js/ripe.js:929-1017 | definition of `changeFrame`; `ChangeFrameJumps`, `ChangeFrameStepsForward` and `UpdateKeepsMove` state its effect |
| `Configurator.Lowlighted` | src/python/ripe_demo/static/js/ripe.js:1082-1094 | definition of `lowlight`: the highlight classes leave the front mask and the element |
| `Configurator.Highlighted` | src/python/ripe_demo/static/js/ripe.js:1019-1080 | definition of `highlight` with the corrected listener replacement of the Findings; `HighlightAgain` and `ClickHighlights` state its effect |
| `Configurator.HighlightedAsWritten` | src/python/ripe_demo/static/js/ripe.js:1019-1080 | definition of `highlight` as written, where the earlier listeners stay on the front mask |
| `Configurator.Clicked` | src/python/ripe_demo/static/js/ripe.js:1508-1525 | definition of a click on a canvas, through the owner's "selected_part" event; `ClickHighlights` states its effect |
| `Configurator.Hovered` | src/python/ripe_demo/static/js/ripe.js:1527-1547 | definition of a hover over a canvas: the part under the pointer is highlighted, the background lowlights |
| `Configurator.Fired` | src/python/ripe_demo/static/js/ripe.js:1007-1013 | definition of a firing timer: a preload renders, a mask is drawn, or `changeFrame` takes its next step |
| `Configurator.LaidOutAt` | src/python/ripe_demo/static/js/ripe.js:1113-1178 | after the layout, one image per frame in both buffers, the initial view and position, and blank canvases |
| `Configurator.MasksOffByDefault` | src/python/ripe_demo/static/js/ripe.js:799-800 | masks are off unless `useMasks` is given or `noMasks` is false |
| `Configurator.UpdateSkipsUnchanged` | src/python/ripe_demo/static/js/ripe.js:894-912 | an unforced update of the frame drawn last only runs the callback; otherwise the new key is recorded |
| `Configurator.NewSignaturePreloads` | src/python/ripe_demo/static/js/ripe.js:894-926 | when the signature is new and the update succeeds, the new signature and key are recorded and a new preload generation starts |
| `Configurator.ChangeFrameRange` | src/python/ripe_demo/static/js/ripe.js:942-945 | `changeFrame` throws `RangeError` exactly when the view has no frames or the position is past its count; then nothing has changed |
| `Configurator.UpdateKeepsMove` | src/python/ripe_demo/static/js/ripe.js:994-1016 | the update after a move keeps the frame the move set and the events it emitted |
| `Configurator.MoveJumps` | src/python/ripe_demo/static/js/ripe.js:949-964 | without a duration the element moves to the requested frame, records the old position for the old view, and triggers "changed_frame" for the new frame |
| `Configurator.ChangeFrameJumps` | src/python/ripe_demo/static/js/ripe.js:929-1017 | the whole `changeFrame` without a duration shows the requested frame, records the old position, and triggers "changed_frame" before anything the update emits |
| `Configurator.MoveStepsForward` | src/python/ripe_demo/static/js/ripe.js:969-983 | with a duration on the same view, the move goes one frame forward |
| `Configurator.ChangeFrameStepsForward` | src/python/ripe_demo/static/js/ripe.js:974-982 | with a duration on the same view, the position becomes `(position + 1) mod n` whichever way the target lies |
| `Configurator.DragStaysInRange` | src/python/ripe_demo/static/js/ripe.js:1647-1671 | a drag within the threshold asks for a frame of its view, which `changeFrame` accepts: a drag never throws `RangeError` |
| `Configurator.HighlightAgain` | src/python/ripe_demo/static/js/ripe.js:1040-1044 | highlighting the part already highlighted changes nothing more |
| `Configurator.ClickHighlights` | src/python/ripe_demo/static/js/ripe.js:1508-1525 | an idle click on a visible part triggers "selected_part" for it, adds "highlight" and points the front mask at the part's mask URL |
| `Configurator.Configurator.constructor` | src/python/ripe_demo/static/js/ripe.js:789-841 | the options take their defaults (sensitivity 40, threshold 15, view "side"); nothing is ready or laid out yet |
| `Configurator.Configurator.Update` | src/python/ripe_demo/static/js/ripe.js:874-927 | leaves the state `Updated` describes |
| `Configurator.Configurator.Lowlight` | src/python/ripe_demo/static/js/ripe.js:1082-1094 | leaves the state `Lowlighted` describes |
| `Configurator.Configurator.Highlight` | src/python/ripe_demo/static/js/ripe.js:1019-1080 | leaves the state `Highlighted` describes |
| `Configurator.Configurator.MoveFrame` | src/python/ripe_demo/static/js/ripe.js:929-998 | leaves the state `FrameMoved` describes |
| `Configurator.Configurator.Jump` | src/python/ripe_demo/static/js/ripe.js:985-998 | leaves the state `Jumped` describes |
| `Configurator.Configurator.StepTowards` | src/python/ripe_demo/static/js/ripe.js:969-998 | leaves the state `Stepped` describes |
| `Configurator.Configurator.ChangeFrame` | src/python/ripe_demo/static/js/ripe.js:929-1017 | the move, then the update: the state `FrameChanged` describes |
| `Configurator.Configurator.Resize` | src/python/ripe_demo/static/js/ripe.js:843-872 | a size of 0 is the element's width; the same size changes nothing; before the layout it throws `TypeError`; otherwise the size is stored, the canvases are cleared and a forced update redraws |
| `Configurator.Configurator.FramesLoaded` | src/python/ripe_demo/static/js/ripe.js:813-818 | the frames are kept, the layout is built at the initial view and position, the size is the element's width, the instance is ready, and the first update runs |
| `Configurator.Configurator.ConfigLoaded` | src/python/ripe_demo/static/js/ripe.js:822-828 | `partsList` is the sorted list of default parts, and `hiddenParts` the configuration's hidden parts |
| `Configurator.Configurator.MouseDown` | src/python/ripe_demo/static/js/ripe.js:1465-1476 | a drag starts at the pointer, from the position shown, or 0 |
| `Configurator.Configurator.MouseUp` | src/python/ripe_demo/static/js/ripe.js:1478-1496 | the drag ends, `percent` is reset, and "drag" leaves the classes |
| `Configurator.Configurator.Measure` | src/python/ripe_demo/static/js/ripe.js:1623-1653 | tilt and shift are the sensitivity times the drag as fractions of the element; `referenceY` moves to the pointer exactly when the tilt passes the threshold |
| `Configurator.Configurator.ParseDrag` | src/python/ripe_demo/static/js/ripe.js:1623-1672 | changes to the frame `Drag.DragFrame` picks from the measured drag |
| `Configurator.Configurator.MouseMove` | src/python/ripe_demo/static/js/ripe.js:1498-1506 | ignored while "no-drag" is set; otherwise records the pointer and, during a drag only, follows it |
| `Configurator.Configurator.Click` | src/python/ripe_demo/static/js/ripe.js:1508-1525 | a click on a canvas leaves the state `Clicked` describes |
| `Configurator.Configurator.Hover` | src/python/ripe_demo/static/js/ripe.js:1527-1547 | a hover leaves the state `Hovered` describes |
| `Configurator.Configurator.TimerFired` | src/python/ripe_demo/static/js/ripe.js:1442-1444 | a firing timer starts rendering, draws a mask or takes the next step, as `Fired` describes |
| `ConfigPart.ConfigSettings` | src/js/visual/config.part.js:157-169 | `ripe.Config` locks drags with the "noDrag" class only |
| `ConfigPart.SizeText` | src/js/visual/config.part.js:38 | the stored size is never empty |
| `ConfigPart.Updated` | src/js/visual/config.part.js:58-105 | `update`, with the size read where `resize` stores it, keeps the view, the position, the saved positions and the images, and throws only `TypeError` |
| `ConfigPart.UpdatedAsWritten` | src/js/visual/config.part.js:80-82 | as written, `update` reads the size as "null" whatever was stored |
| `ConfigPart.NextStep` | src/js/visual/config.part.js:141-147 | a step lands in the view, or on the target when held there; it is held only at the target |
| `ConfigPart.StepPosition` | src/js/visual/config.part.js:141-148 | definition of the stepped position and whether it reached the target; `StepHeldAtTarget` and `StepWithoutFrames` state its effect |
| `ConfigPart.Moved` | src/js/visual/config.part.js:117-161 | with the corrected "changed_frame" trigger of the fourth Findings row, the position shown is saved for its view (an unset view under "undefined"), and the callback passed to `update` carries the same frame and options |
| `ConfigPart.ChangedAsWritten` | src/js/visual/config.part.js:107-161 | as written, `changeFrame` throws `TypeError` at the `_runCallbacks` call: the position is saved (an unset view under "undefined"), the view and position may move, an unset view not crossed from becomes "undefined", and "noDrag" may be added, but nothing is triggered, updated or scheduled |
| `ConfigPart.CrossingLocksDragAsWritten` | src/js/visual/config.part.js:117-161 | as written, a change to another view with frames and `preventDrag` moves to that view and leaves "noDrag" set, with no event and no timer that would lift it |
| `ConfigPart.Changed` | src/js/visual/config.part.js:107-182 | with the corrected "changed_frame" trigger of the fourth Findings row, `changeFrame` saves the position shown for its view (an unset view under "undefined") and throws only `TypeError`; after the layout an unset view not crossed from is left as "undefined"; before the "frames" event it throws `TypeError` right after saving it |
| `ConfigPart.Lowlighted` | src/js/visual/config.part.js:231-235 | after the layout the highlight classes go; before it, the missing front mask throws `TypeError` |
| `ConfigPart.Chosen` | src/js/visual/config.part.js:696-705 | definition of `_chosenPart` over `partsList`; `ChosenFromList` states its choices |
| `ConfigPart.Fired` | src/js/visual/config.part.js:175-179 | definition of a firing timer of `ripe.Config`, with the corrected trigger of the fourth Findings row: a preload renders, a mask is drawn, or `changeFrame` takes its next step |
| `ConfigPart.StepHeldAtTarget` | src/js/visual/config.part.js:141-148 | a step is `(position + step) mod n`, held at the target when it would pass it; it never passes the target and arrives exactly when it lands on it |
| `ConfigPart.StepContinues` | src/js/visual/config.part.js:164-179 | a step that did not arrive is where the next scheduled step starts from |
| `ConfigPart.UnitStepsArrive` | src/js/visual/config.part.js:141-179 | steps of 1 reach any frame of the view within as many steps as it has frames |
| `ConfigPart.UnitStepsBackArrive` | src/js/visual/config.part.js:141-179 | steps of -1 do the same |
| `ConfigPart.EvenStepsMissLastFrame` | src/js/visual/config.part.js:141-179 | steps of 2 over four frames towards frame 3 never arrive, so the steps go on for ever |
| `ConfigPart.ViewChangesOnlyWithFrames` | src/js/visual/config.part.js:123-161 | with the corrected trigger of the fourth Findings row, the view changes, with "cross", exactly when the target view has frames and differs from the view read (an unset view differs from every view); otherwise that view is written back, an unset one as "undefined"; "changed_frame" names the frame now shown |
| `ConfigPart.UpdateWithoutFrameThrows` | src/js/visual/config.part.js:317-347 | an update with a new unique key whose frame shown has no image in the buffers throws `TypeError` and keeps the view and position |
| `ConfigPart.UnsetViewReloadThrows` | src/js/visual/config.part.js:117-136 | from a view never set, a change to a view without frames stores the view "undefined"; the update then finds no image for "undefined-<q>" and throws `TypeError` |
| `ConfigPart.StepWithoutFrames` | src/js/visual/config.part.js:136-148 | without a step the target's position is shown; a step on a view without frames gives `NaN` and never arrives |
| `ConfigPart.DragLock` | src/js/visual/config.part.js:157-179 | with the corrected trigger of the fourth Findings row, "noDrag" is added when `preventDrag` holds and the change cross-fades or steps; the callback unlocks when there is no step or the step arrived, and otherwise schedules the next step |
| `ConfigPart.UpdateSkipsUnchanged` | src/js/visual/config.part.js:80-86 | with the unique key (signature, view, position, size) unchanged, `update` only runs the callback |
| `ConfigPart.UpdateRecordsKey` | src/js/visual/config.part.js:80-104 | with a new unique key, `update` records it and loads the frame shown |
| `ConfigPart.UniqueKeySize` | src/js/visual/config.part.js:82 | two unique keys that differ only in the size are different |
| `ConfigPart.ResizeBlankAsWritten` | src/js/visual/config.part.js:54-83 | as written, after a resize the update finds the key it drew last and stops, leaving the canvases blank |
| `ConfigPart.ResizeRedraws` | src/js/visual/config.part.js:54-104 | with the size read where `resize` stores it, a resize records a new key and loads the frame shown; a frame whose image already loaded is drawn again at once |
| `ConfigPart.DragWithinView` | src/js/visual/config.part.js:653-677 | a drag within ±15 on a view with frames changes to `trunc(base - shift) mod n` of that view, a frame of the product, without a step |
| `ConfigPart.ChosenFromList` | src/js/visual/config.part.js:696-705 | with a parts list the choice is the hit test's; an unset list throws; the part at `index - 1` otherwise |
| `ConfigPart.Config.constructor` | src/js/visual/config.part.js:10-31 | the sensitivity defaults to 40; nothing is laid out or ready |
| `ConfigPart.Config.Update` | src/js/visual/config.part.js:58-105 | leaves the state `Updated` describes, with the corrected size key of the Findings: the size `resize` stored |
| `ConfigPart.Config.Resize` | src/js/visual/config.part.js:33-56 | before the layout it throws; otherwise it stores `size || clientWidth || options.size`, clears the canvases and updates |
| `ConfigPart.Config.FramesLoaded` | src/js/visual/config.part.js:25-30 | the frames are kept and the layout is built; its resize stores the size and runs an update with the old readiness; unless that throws, the instance becomes ready and updates again |
| `ConfigPart.Config.MoveFrame` | src/js/visual/config.part.js:117-161 | once the frames are known, with the corrected trigger of the fourth Findings row, leaves the state `Moved` describes |
| `ConfigPart.Config.ChangeFrame` | src/js/visual/config.part.js:107-182 | leaves the state `Changed` describes, with the corrected trigger of the fourth Findings row: before the layout, the saved position and `TypeError` |
| `ConfigPart.Config.Lowlight` | src/js/visual/config.part.js:231-235 | leaves the state `Lowlighted` describes |
| `ConfigPart.Config.ChosenPart` | src/js/visual/config.part.js:680-706 | lowlights or returns the part `Chosen` picks |
| `ConfigPart.Config.MouseDown` | src/js/visual/config.part.js:533-542 | a drag starts at the pointer, from the position shown, or 0 |
| `ConfigPart.Config.MouseUp` | src/js/visual/config.part.js:547-564 | the drag ends, `percent` is reset, and "drag" leaves the classes |
| `ConfigPart.Config.Measure` | src/js/visual/config.part.js:625-657 | tilt and shift are the sensitivity times the drag as fractions of the element; `referenceY` moves exactly when the tilt passes ±15 |
| `ConfigPart.Config.ParseDrag` | src/js/visual/config.part.js:625-678 | adds "move" when the drag passes 2% of the element either way, then changes to the frame `Drag.DragFrame` picks with threshold 15, through the corrected `changeFrame` of the fourth Findings row |
| `ConfigPart.Config.MouseMove` | src/js/visual/config.part.js:570-580 | ignored while "noDrag" is set; otherwise records the pointer and, during a drag only, follows it |
| `ConfigPart.Config.TimerFired` | src/js/visual/config.part.js:176-178 | with the corrected trigger of the fourth Findings row, a firing timer starts rendering, draws a mask or takes the next step, as `Fired` describes |
| `ApiConfig.PropSetProp` | src/js/api/config.js:120-136 | a key written into an options object reads back as the value written, every other key reads as before, and writing into a non-object gives no object |
| `ApiConfig.SetProp` | src/js/api/config.js:131-136 | writing a key of an object sets it and keeps every other key; a non-object is unchanged |
| `ApiConfig.FinalParams` | src/js/api/config.js:128-136 | `params.dku` is set only for a dku that is neither null nor undefined; `params.guess` is "1" or "0" from the guess's truthiness, and is omitted when null; other keys are kept |
| `ApiConfig.GetConfigInfoOptions` | src/js/api/config.js:119-145 | the result has url `this.url + "config/info"`, method "GET" and the final params, and keeps every other prepared option |
| `ApiConfig.PreparedSteps` | src/js/api/config.js:122-126 | the query and initials builders run only when their flags are not false; both default to true |
| `ApiConfig.WrittenParams` | src/js/api/config.js:120-136 | the two conditional writes compute `FinalParams`, with dku defaulting to null and guess to `this.guess` |
| `ApiConfig.AssignInfo` | src/js/api/config.js:140-144 | `Object.assign` of url, method and params leaves every other key as it was |
| `ApiConfig.InfoFields` | src/js/api/config.js:140-144 | the literal holds url, method "GET" and params, in that order |
| `ApiConfig.DkuDefaults` | src/js/api/config.js:58 | the literal holds the dku, and false for both builder flags |
| `ApiConfig.ConfigDkuOptions` | src/js/api/config.js:58 | the caller's options override the dku defaults; missing keys take them |
| `ApiConfig.DkuSkipsBuilders` | src/js/api/config.js:58-59 | without caller flags, `configDku` runs neither option builder |
| `ApiConfig.ConfigResolveOptions` | src/js/api/config.js:94-95 | the URL is `this.url + "config/resolve/" + productId` unless the caller supplies one; other keys are the caller's |
| `Tags.AddedTagOnlyDisables` | src/js/base/config.js:12-25 | tags only switch features off: a feature available after a tag is added was available before, and adding "no_customization", "no_initials", "no_personalization" or "no_size" switches its feature off |
| `Tags.MissingTagsAllowEverything` | src/js/base/config.js:12-25 | without tags all three predicates hold |
| `Tags.UnrelatedTagIgnored` | src/js/base/config.js:12-25 | adding an unrelated tag changes none of the three |
| `Tags.TagOrderIrrelevant` | src/js/base/config.js:12-25 | two tag lists with the same members give the same three answers, whatever their order or repetitions |

## Left out

- Network I/O is not modelled. This covers `_requestURL`, `getConfig`, `getPrice`, `getDefaults`,
  `getCombinations`. Requests appear only as emitted `Requested`, `ImageRequest` and
  `MaskRequest` records, from which the URL follows. Their answers come back as method parameters:
  `PartsLoaded`, `GetFrames`, `FramesLoaded` and `ConfigLoaded`.
- `animateProperty` is floating-point opacity driven by the clock. Only its end is modelled, as
  the `AnimationFinished` event. The opacities are the end values 0 and 1.
- The `setTimeout` delays (250, 150 and the step intervals) are left out. Timers are a queue of
  pending events that the environment fires in any order (`TimerFired`).
- DOM plumbing is left out: canvas sizing in `resize`, `createElement`, `fixEvent`,
  `touchHandler`, the fullscreen methods, `maxSize` and `ripe.Image`. `_initLayout` is reduced
  to the images and canvases it creates.
- The pixel read and ratio scaling of `_getCanvasIndex` and `_chosenPart` are left out. The
  red value under the pointer is an input.
- `src/js/base.js` is not part of this model. The Promise wrappers `configInfoP`, `configDkuP`
  and `configResolveP` are left out, as are `configInfo`'s own delegation, `_build` and
  `_cacheURL`.
- `_getQueryOptions` and `_getInitialsOptions` are opaque functions passed in as parameters.
- `ripe.Config.highlight` is not modelled. It builds its URL from `this.url`, `this.model` and
  `this.format`, which `ripe.Config` never defines. Its "selected_part" binding is left out for
  the same reason.
- A repeated "frames" event registers the pointer handlers again in both viewers. The model
  registers them once.
- `ripe.Config` never sets `partsList`. The model keeps it as an option that is always unset,
  so a part lookup throws `TypeError` (`ConfigPart.Chosen`).
- `parseInt` and `==` coercion are modelled on decimal digit strings only. Leading whitespace,
  signs, fractions and exponents read as `NaN`.
- `null`, `undefined` and `""` are one value wherever the source only tests truthiness. A
  dataset entry written from `undefined` reads "undefined" (`ConfigPart.Shown`): `changeFrame`
  writes an unset view and an absent target position back that way, and saves the position of
  an unset view under the key "undefined" (`ConfigPart.Saved`).
- A view literally named "" is not distinguished from an unset view. `changeFrame` to such a
  view with frames stores "", which the model then reads as unset.
- ripe.js `_preload` compares `_index === position`. While a position is shown, that position
  is a string and never equals the number, so no frame is skipped. Only an unset position
  becomes the number 0, and then frame 0 of each view is skipped. The model follows the code
  (`Engine.PreloadFirst`).
- In ripe.js `changeFrame`, a duration always steps by +1 (`stepCount / stepCount`), whichever
  way the target lies. The model follows the code: `Configurator.ChangeFrameStepsForward`.
- In ripe.js, `setParts` with a parts object applies nothing, because the object has no
  `length`. The model follows the code: `Product.Ripe.SetParts`.
- Configurator.Configurator.ParseDrag requires a positive element width and height. With a zero
  size the source divides by zero and goes on with `NaN`, which the model does not represent.
- Configurator.Configurator.MouseMove requires a positive element width and height, for the same
  reason.
- Configurator.Configurator.Measure requires a positive element width and height, for the same
  reason.
- ConfigPart.Config.ParseDrag requires a positive element width and height, for the same reason.
- ConfigPart.Config.MouseMove requires a positive element width and height, for the same reason.
- ConfigPart.Config.Measure requires a positive element width and height, for the same reason.
- Configurator.Configurator.FramesLoaded requires that the configurator is not ready yet. The
  `getFrames` callback runs once, before `ready` is set.
- Configurator.Configurator.StepTowards and Configurator.Stepped require a positive frame count,
  and a target other than the position shown unless the view changes. `MoveFrame` calls them only
  then; otherwise it jumps.
- Configurator.FrameMoved ends with the `Unsupported` outcome, changing nothing, for a change
  with a duration when the requested or the shown position is `NaN`, or when the target is the
  frame already shown. The source computes with `NaN`, or with a step count of 0 and an infinite
  step duration, and the model does not represent those values.
- `ripe.Config.changeFrame` has no range validation; only the configurator of ripe.js throws
  `RangeError`. The model follows the code.
- The minified build's configurator (`changeFrame`, `_parseDrag`, `_preload`, `_drawFrame`)
  is modelled once, by `Configurator` and `Engine` over the readable ripe.js. Only the setters,
  `_partsList` and `_getImageURL`, where the two builds differ, are modelled separately.

- Events.Observable.RunCallbacks runs the event's list as it stood when the event was
  triggered. The source's loop reads the live array (ripe.js:190-194), so a callback that binds
  or unbinds during the trigger changes what runs after it. Callbacks here are values that
  cannot reach the registry.
- ApiConfig.GetConfigInfoOptions returns a new dictionary. The source writes `params`,
  `params.dku` and `params.guess` into the caller's own objects and returns the caller's
  `options` (api/config.js:128-144), so the caller sees those writes. The model has no
  aliasing of these objects.
- Query.MaskURL leaves out the write of `options.parts || {}` back into the caller's options
  (ripe.js:685). Only the URL is modelled.
- Tags.HasCustomization takes the tags as an argument. In the source, reading
  `this.loadedConfig.tags` throws `TypeError` while no configuration is loaded
  (base/config.js:13); the model has no unloaded configuration.
- Tags.HasPersonalization: the same, at base/config.js:18.
- Tags.HasSize: the same, at base/config.js:23.
- ConfigPart.Config.Update keys on the size `resize` stored. This is the corrected key of the
  second Findings row; the source always reads "null" there, as `ConfigPart.UpdatedAsWritten`
  and `ConfigPart.ResizeBlankAsWritten` show.
- ConfigPart.Config.Resize runs its update with the same corrected size key.
- ConfigPart.Config.FramesLoaded runs its updates with the same corrected size key.
- ConfigPart.Config.ChangeFrame runs its update with the same corrected size key.
- ConfigPart.Config.ParseDrag runs its update with the same corrected size key.
- ConfigPart.Config.MouseMove runs its update with the same corrected size key.
- ConfigPart.Config.TimerFired runs its update with the same corrected size key.
- ConfigPart.Moved describes `changeFrame` once the frames are known. Before the "frames"
  event, `ConfigPart.Changed` throws at the frames lookup (config.part.js:129) and never gets
  that far. It also triggers "changed_frame" with the corrected `trigger` of the fourth Findings
  row; as written the call at config.part.js:161 throws (`ConfigPart.ChangedAsWritten`).
- ConfigPart.Config.MoveFrame: the same; `ConfigPart.Config.ChangeFrame` calls it only after
  the layout.
- Engine.PointFrontMask is the corrected highlight of the third Findings row: a new highlight
  replaces the earlier load listener. As written the listeners pile up, as
  `Engine.PointFrontMaskAsWritten` and `Engine.StaleHighlightAsWritten` show.
- Configurator.Highlighted uses that corrected replacement; `Configurator.HighlightedAsWritten`
  is the code as written.
- Configurator.Clicked highlights through `Configurator.Highlighted`, with the corrected
  replacement.
- Configurator.Hovered highlights through `Configurator.Highlighted`, with the corrected
  replacement.
- Configurator.Configurator.Highlight runs the corrected replacement.
- Configurator.Configurator.Click runs the corrected replacement.
- Configurator.Configurator.Hover runs the corrected replacement.

- src/js/visual/visual.js, the prototype of `ripe.Config`, is not part of this model. The model
  takes `ripe.Visual` as ripe.js defines it (ripe.js:770-771), whose event methods are the
  observable's `bind`, `unbind`, `trigger` and `runCallbacks` (ripe.js:168-199).
- ConfigPart.Changed triggers "changed_frame" with the corrected `trigger` of the fourth Findings
  row. As written `_runCallbacks` is missing and the call throws `TypeError` after the view,
  the position and "noDrag" were written, as `ConfigPart.ChangedAsWritten` states.
- ConfigPart.Fired takes the next step through that corrected `changeFrame`.
- ConfigPart.ViewChangesOnlyWithFrames states the corrected "changed_frame" event; as written
  no event is triggered.
- ConfigPart.DragLock states the callback of the corrected `changeFrame`. As written that
  callback is never created, and "noDrag" stays set (`ConfigPart.CrossingLocksDragAsWritten`).
- ConfigPart.Config.MoveFrame runs the corrected trigger.
- ConfigPart.Config.ChangeFrame runs the corrected trigger.
- ConfigPart.Config.ParseDrag changes frame through the corrected trigger.
- ConfigPart.Config.MouseMove follows a drag through the corrected trigger.
- ConfigPart.Config.TimerFired takes the next step through the corrected trigger.
- Engine.Mark, for `ripe.Config`, triggers "loaded" (config.part.js:469) with the corrected
  `trigger` as well; as written `mark` throws `TypeError` there, after removing the
  "preloading" and "noDrag" classes.
- Engine.MarkLoaded: the same, for `ripe.Config`.
- Element dataset overrides are not modelled. The source reads `dataset.size`, `dataset.width`
  and `dataset.height` (ripe.js:883-885, 1189-1191), `dataset.mask_opacity` and
  `dataset.mask_duration` (ripe.js:1042-1043), `dataset.sensitivity` and
  `dataset.verticalThreshold` (ripe.js:1640-1641) and `dataset.sensitivity` (config.part.js:12,
  642) before the options. Each option or constructor parameter of the model stands for
  `dataset.x || option`.
- HitTest.SortStrings orders strings by Unicode code point, where JavaScript's `sort` compares
  UTF-16 code units. The two orders differ only between a character above U+FFFF and one in
  U+E000-U+FFFF.

## Findings

| source | as written | input that shows it | evidently intended | confidence | as-written member | corrected member |
|---|---|---|---|---|---|---|
| src/python/ripe_demo/static/js/ripe.js:387-393 | `_setPart` triggers "part" with the part's value, which has no `name`, so the sync handler always copies from the rule's first part | rule `["a", "b"]`, both parts present, `setPart("b", m, c)` with `(m, c)` different from part a's value | the changed part is the reference, as in the minified build, which triggers `{name, material, color}` | not executed | `Product.SyncRevertsChange` | `ProductMin.SyncKeepsChange` |
| src/js/visual/config.part.js:80 | `update` reads the attribute "data-current-size", but `resize` writes `dataset.current_size`, whose attribute is "data-current_size"; the size is always "null" | `resize(500)` after a first update: the canvases are cleared, the key is unchanged and nothing is redrawn | the size `resize` stored is part of the unique key, so a resize redraws | not executed | `ConfigPart.ResizeBlankAsWritten` | `ConfigPart.ResizeRedraws` |
| src/python/ripe_demo/static/js/ripe.js:1066-1071 | `highlight` removes a load listener it has just created, so every earlier highlight's listener stays on the front mask | `highlight("a")` then `highlight("b")` before the first mask loads: the load triggers "highlighted_part" for "a" and then for "b" | each highlight replaces the previous listener, so a load announces the last part only | not executed | `Engine.StaleHighlightAsWritten` | `Engine.HighlightOnce` |
| src/js/visual/config.part.js:161 | `changeFrame` calls `this._runCallbacks`, which `ripe.Config` does not have (its `ripe.Visual` has `trigger`), so it throws `TypeError` after moving and locking; "loaded" at config.part.js:469 fails the same way | `changeFrame("top-0")` from the view "side" with frames for "top" and `preventDrag` unset: the view moves, "noDrag" stays set, nothing is drawn, and every later mousemove is ignored | `this.trigger("changed_frame", newFrame)`, as the minified build does (ripe-min.js:50) | not executed | `ConfigPart.CrossingLocksDragAsWritten` | `ConfigPart.DragLock` |
