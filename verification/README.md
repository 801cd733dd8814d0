# Usage hologram

A model of `MCEngineHologramApi.getUsageHologram`, which shows a player why a
command was rejected. It builds a multi-line "hologram" in front of the
player's eyes: one invisible armor stand per line of text. A right-click by
that player on any of the stands sends them a chat message. That message
pre-fills the command prefix in their chat box. After ten seconds a scheduled
task removes the stands and unregisters the listener.

The model has six modules:

- `UsageLines` (usage_lines.dfy) turns a nullable array of nullable usage strings into the displayed lines. These are a header, a "Usage:" label, each non-null, non-empty usage, and a click hint. A usage that starts with the colour character `§` is kept verbatim. Any other usage is prefixed with the gray colour code (the colour character followed by `7`). The Java loop is the method `ComposeLines`, proved equal to the function `ComposedLines`. Lemmas give the count (k usable usages give k + 3 lines), the order, and where each usage line comes from.
- `Layout` (layout.dfy) gives the base point in front of the eyes and the position of line i. That position is the base lowered by i × 0.27 on the vertical axis only.
- `Host` (host.dfy) is the part of the server the hologram touches. A `World` class holds a map from entity id to entity, where each entity has a dead flag. It hands out fresh ids, keeps the chat messages sent to players, and keeps a ghost log of `remove()` calls. The right-click-at-entity event is a class whose only mutable field is its cancelled flag.
- `Hologram` (hologram.dfy) holds the session class `UsageHologram`. Its constructor runs the spawn loop, registers the listener and schedules the cleanup task. `Dispatch` and `OnInteract` are the event bus's delivery and the listener. `Cleanup` is the scheduled task. The pure function `CleanupPass` specifies the cleanup loop, and lemmas prove what the loop does: it removes exactly the stands that were still alive, skips the dead ones, and a second run changes nothing. `GetUsageHologram` is the entry point, and a null player makes it a no-op.
- `Scenarios` (scenarios.dfy) holds client methods that derive lifecycle facts from the contracts alone. The owner's repeated clicks are answered, a stranger's click is not, a click after cleanup is ignored, and two holograms do not answer each other's clicks.
- `Wrappers` (wrappers.dfy) provides `Option`, which stands for Java's nullable references.

The listener is commented "single-use" in the source, but nothing unregisters it after a click. Every matching click until cleanup is answered. The model keeps that behaviour (`Dispatch`, `Scenarios.RepeatedClicks`).

## Model

| member | source | states |
|---|---|---|
| `UsageLines.Colourise` | src/main/java/io/github/mcengine/api/hologram/MCEngineHologramApi.java:70-72 | every usage line starts with the colour character and ends with the usage text itself |
| `UsageLines.Usable` | src/main/java/io/github/mcengine/api/hologram/MCEngineHologramApi.java:67 | an entry yields a line exactly when it is not null and not empty |
| `UsageLines.ColouriseVerbatim` | src/main/java/io/github/mcengine/api/hologram/MCEngineHologramApi.java:70-72 | a usage is shown unchanged exactly when it starts with `§`; otherwise it is shown as the gray colour code followed by the usage |
| `UsageLines.ColouriseIdempotent` | src/main/java/io/github/mcengine/api/hologram/MCEngineHologramApi.java:70-72 | applying the colour rule to its own output changes nothing |
| `UsageLines.Kept` | src/main/java/io/github/mcengine/api/hologram/MCEngineHologramApi.java:66-67 | the kept usages are no more than the entries, and none is empty |
| `UsageLines.KeptSingle` | src/main/java/io/github/mcengine/api/hologram/MCEngineHologramApi.java:67 | one entry contributes its text when it is non-null and non-empty, and nothing otherwise |
| `UsageLines.KeptAppend` | src/main/java/io/github/mcengine/api/hologram/MCEngineHologramApi.java:66-74 | filtering distributes over concatenation, so kept usages keep their original order |
| `UsageLines.KeptMembership` | src/main/java/io/github/mcengine/api/hologram/MCEngineHologramApi.java:66-74 | a string is kept exactly when some entry is that string and it is non-empty |
| `UsageLines.KeptCount` | src/main/java/io/github/mcengine/api/hologram/MCEngineHologramApi.java:66-74 | the number of kept usages equals the number of non-null, non-empty positions |
| `UsageLines.ComposeLines` | src/main/java/io/github/mcengine/api/hologram/MCEngineHologramApi.java:62-76 | the composition loop yields exactly the specified line list: header, label, the colour-ruled usable usages in order, then the hint |
| `UsageLines.ComposedLength` | src/main/java/io/github/mcengine/api/hologram/MCEngineHologramApi.java:62-76 | k usable usages give k + 3 lines |
| `UsageLines.ComposedFrame` | src/main/java/io/github/mcengine/api/hologram/MCEngineHologramApi.java:63-64 | the header and the "Usage:" label are the first two lines and the click hint is the last |
| `UsageLines.ComposedUsageAt` | src/main/java/io/github/mcengine/api/hologram/MCEngineHologramApi.java:65-73 | the k-th usable usage, after the colour rule, is line k + 2 |
| `UsageLines.FixedLinesOnly` | src/main/java/io/github/mcengine/api/hologram/MCEngineHologramApi.java:63-65 | a null array, or one without a usable entry, gives exactly the three fixed lines |
| `UsageLines.UsageLineOrigin` | src/main/java/io/github/mcengine/api/hologram/MCEngineHologramApi.java:65-73 | a line between the label and the hint is the colour-ruled form of a usable entry, and every usable entry yields such a line |
| `UsageLines.ExampleUsage` | src/main/java/io/github/mcengine/api/hologram/MCEngineHologramApi.java:62-76 | the usages ["Use /x <arg>", ""] give four lines, with the empty entry dropped |
| `Layout.LineLocation` | src/main/java/io/github/mcengine/api/hologram/MCEngineHologramApi.java:89 | a line keeps the base's horizontal coordinates and never stands above the base |
| `Layout.FirstLineAtBase` | src/main/java/io/github/mcengine/api/hologram/MCEngineHologramApi.java:89 | line 0 stands at the base point |
| `Layout.ConsecutiveLines` | src/main/java/io/github/mcengine/api/hologram/MCEngineHologramApi.java:87-89 | line i + 1 is line i moved down by exactly 0.27, with the other coordinates equal |
| `Layout.LinesDescend` | src/main/java/io/github/mcengine/api/hologram/MCEngineHologramApi.java:87-89 | later lines stand strictly lower, (j - i) × 0.27 below line i, so no two lines share a position |
| `Layout.ExampleLayout` | src/main/java/io/github/mcengine/api/hologram/MCEngineHologramApi.java:79-89 | a viewer at the origin facing +z gets its base at (0, -0.9, 1.6) and its fourth line at y = -1.71 |
| `Layout.Base` | src/main/java/io/github/mcengine/api/hologram/MCEngineHologramApi.java:79-81 | the first line's anchor: the eye moved 1.6 along the normalised facing direction, then 0.9 down |
| `Layout.BaseAheadOfEye` | src/main/java/io/github/mcengine/api/hologram/MCEngineHologramApi.java:80-81 | for a unit facing vector, the base raised back by the vertical offset lies exactly 1.6 from the eye |
| `Host.World.Spawn` | src/main/java/io/github/mcengine/api/hologram/MCEngineHologramApi.java:92-101 | spawning adds one living stand under an id no entity had, and changes nothing else |
| `Host.World.Remove` | src/main/java/io/github/mcengine/api/hologram/MCEngineHologramApi.java:129 | removing marks that entity dead, leaves the others unchanged, and logs the call |
| `Host.World.SendMessage` | src/main/java/io/github/mcengine/api/hologram/MCEngineHologramApi.java:120 | a sent message is appended to the chat |
| `Hologram.PrefillTip` | src/main/java/io/github/mcengine/api/hologram/MCEngineHologramApi.java:116-120 | the tip goes to the owner, its click action suggests exactly the command prefix (null when the prefix is null), and its text ends with the prefix, or with "null" for a null prefix |
| `Hologram.OthersIgnored` | src/main/java/io/github/mcengine/api/hologram/MCEngineHologramApi.java:111 | a click by anyone other than the owner never matches, whatever it targets |
| `Hologram.Targets` | src/main/java/io/github/mcengine/api/hologram/MCEngineHologramApi.java:111-112 | the listener's filter: the clicking player is the owner and the clicked entity is one of the stands |
| `Hologram.UsageHologram.Handles` | src/main/java/io/github/mcengine/api/hologram/MCEngineHologramApi.java:109-112 | an event reaches the listener only while it is registered and when the event is not cancelled, and is handled when the filter matches |
| `Hologram.NoCrossTrigger` | src/main/java/io/github/mcengine/api/hologram/MCEngineHologramApi.java:111-112 | two holograms with disjoint stand ids never both match one click |
| `Hologram.DistinctCardinality` | src/main/java/io/github/mcengine/api/hologram/MCEngineHologramApi.java:103-104 | with distinct fresh ids, the id set has as many elements as the spawned list |
| `Hologram.CleanupPass` | src/main/java/io/github/mcengine/api/hologram/MCEngineHologramApi.java:128-130 | after the cleanup loop every spawned stand is dead, every other entity is unchanged, no entity appears or vanishes, and only spawned stands were removed |
| `Hologram.CleanupRemovesLive` | src/main/java/io/github/mcengine/api/hologram/MCEngineHologramApi.java:128-130 | with distinct ids, the loop removes exactly the stands that were alive before it, in spawn order; dead ones are skipped |
| `Hologram.CleanupOfDead` | src/main/java/io/github/mcengine/api/hologram/MCEngineHologramApi.java:128-130 | when every spawned stand is already dead, the loop removes nothing and changes nothing |
| `Hologram.NoLiveStands` | src/main/java/io/github/mcengine/api/hologram/MCEngineHologramApi.java:129 | when every spawned stand is dead, no stand passes the loop's guard |
| `Hologram.CleanupIdempotent` | src/main/java/io/github/mcengine/api/hologram/MCEngineHologramApi.java:127-132 | after one cleanup no spawned stand is alive, and a second cleanup changes nothing and removes nothing |
| `Hologram.UsageHologram.constructor` | src/main/java/io/github/mcengine/api/hologram/MCEngineHologramApi.java:84-132 | one fresh living stand per line, existing entities untouched, then the listener is registered and cleanup is scheduled 10 × 20 = 200 ticks ahead |
| `Hologram.UsageHologram.SpawnStands` | src/main/java/io/github/mcengine/api/hologram/MCEngineHologramApi.java:84-105 | the spawn loop leaves one fresh living stand per line with distinct ids; stand i carries line i at line i's position; the id set matches the spawned list |
| `Hologram.UsageHologram.OnInteract` | src/main/java/io/github/mcengine/api/hologram/MCEngineHologramApi.java:110-121 | a click by the owner on one of the stands is cancelled and answered with exactly one tip; any other click is left uncancelled and unanswered |
| `Hologram.UsageHologram.Dispatch` | src/main/java/io/github/mcengine/api/hologram/MCEngineHologramApi.java:109-124 | only a registered listener sees an event, and never a cancelled one; a match cancels it and sends one tip, and the listener stays registered |
| `Hologram.UsageHologram.Cleanup` | src/main/java/io/github/mcengine/api/hologram/MCEngineHologramApi.java:127-132 | the task removes exactly the spawned stands that were still alive, leaves every session stand dead, and unregisters the listener |
| `Hologram.GetUsageHologram` | src/main/java/io/github/mcengine/api/hologram/MCEngineHologramApi.java:55-133 | a null player changes nothing; otherwise the hologram shows the composed lines at the computed base, one new living stand per line and no other new entity, with the listener active and cleanup pending |
| `Scenarios.RepeatedClicks` | src/main/java/io/github/mcengine/api/hologram/MCEngineHologramApi.java:107-121 | each of two clicks by the owner appends a tip, not just the first; a click by any other player appends none |
| `Scenarios.CleanupSilences` | src/main/java/io/github/mcengine/api/hologram/MCEngineHologramApi.java:127-132 | two cleanups with a click in between have the effect of one cleanup: the same world and the same removals; the stand is dead and the click gets no answer |
| `Scenarios.ClicksUntilCleanup` | src/main/java/io/github/mcengine/api/hologram/MCEngineHologramApi.java:55-132 | a hologram with two usages, one of them empty, has four stands and answers exactly the owner's two clicks |
| `Scenarios.TwoViewers` | src/main/java/io/github/mcengine/api/hologram/MCEngineHologramApi.java:111-112 | one player's click on their own stand is answered by their hologram only |
| `Scenarios.NullPlayer` | src/main/java/io/github/mcengine/api/hologram/MCEngineHologramApi.java:56 | a null player yields no hologram |

## Left out

- Plugin resolution (`JavaPlugin.getProvidingPlugin`), `registerEvents`, `runTaskLater` and `HandlerList.unregisterAll` are host services. They appear only as the `listenerActive` and `cleanupPending` flags and the `cleanupDelay` tick count.
- The tick loop and event-bus ordering are host scheduling concerns. Cleanup is an explicit method call, and nothing models the passing of the 200 ticks.
- Eye location, viewing direction and `normalize().multiply(...)` are double-precision vector math. The normalised direction is an input (`Player.facing`), and positions are exact reals. Double rounding of `i * 0.27` is not modelled.
- The armor stand's attribute setters are opaque calls without logic. They are recorded only as the constant `HologramStandAttributes`.
- The chat component and click event are a library type. Only the recipient, the text and the suggested command are kept.
- The six extension interfaces (add-on, agent, API, DLC, library, scripted module) declare `onLoad`/`onDisload`/`setId` without behaviour, so they are not part of this model.
- Java strings are UTF-16 code-unit sequences and may hold lone surrogates; Dafny strings cannot. The model is equivalent for every string a Dafny `string` can represent, and `§` is a single code unit in both.
- `World.Spawn` cannot fail. In the code, an exception partway through the spawn loop leaves the stands already spawned in the world, with no listener registered and no cleanup scheduled, so they are never removed. The code has no rollback.
- The failure paths of `getProvidingPlugin`, `registerEvents` and `runTaskLater` are not modelled. If `getProvidingPlugin` throws, nothing has happened yet. If `registerEvents` throws, the stands stay with no cleanup scheduled. If `runTaskLater` throws, the stands and the listener stay registered for good.
- The code has no fallback for a zero-length viewing direction; normalising it yields non-finite coordinates. The model takes the already normalised direction as an input (`Player.facing`) and does not cover that case.
- The cleanup task runs once in the code. The model lets `Cleanup` be called again, and proves that a second call changes nothing.
