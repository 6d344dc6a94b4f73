# TAB scoreboard adapters and Adventure conversion, in Dafny

This project models three pieces of the TAB plugin:

- **Adventure conversion** (`AdventureHook`). A 32-entry table maps a 5-bit magic-code mask to a set of text decorations. A recursive converter turns the plugin's component tree into Adventure components.
- **Paper packet scoreboard** (`PaperPacketScoreboard`). Scoreboard operations become ordered lists of outbound packets. Objectives get a lazily created platform handle. Team properties are synchronised onto a platform team. Every outbound packet passes an anti-override filter, which raises notifications for objective and display packets and rewrites the members of team packets.
- **Sponge scoreboard** (`SpongeScoreboard`). The player's host scoreboard is a map from name to objective, a map from display slot to objective name and a map from name to team. Enum values are looked up in fixed tables by ordinal. An update, removal or score change on an absent name changes nothing.

The model is functional. Each Paper operation returns the updated plugin entity together with the packets it sent, in order. Each Sponge operation returns the new host scoreboard.

Files:

- `wrappers.dfy`: `Option` and `Result`.
- `bits.dfy`: flag tests on packed integers.
- `adventure.dfy`: the Adventure values the converter produces.
- `chat.dfy`: the plugin's component tree.
- `adventure_hook.dfy`: the decoration table, the converter and the inverse the converter is checked against.
- `safe_scoreboard.dfy`: the plugin's objectives, scores and teams, their enums and the team options field.
- `paper_packet_scoreboard.dfy`: the Paper adapter and its packet filter.
- `sponge_scoreboard.dfy`: the Sponge adapter over a map-backed host scoreboard.

Modelling choices:

- Version-aware rendering is an uninterpreted pure function. `RenderedText` records what was rendered (a component, or a plain string) and for which client version. Two renderings are therefore equal exactly when their inputs are.
- A Java `int` options field is an unbounded `int`. The bit tests use floor division, which matches Java's `&` on two's-complement values of either sign.
- Paper reads the host's `values()` arrays by ordinal. These are modelled as tables that list the host's constants in the plugin enum's order. Each lookup is stated to land on the host constant with the same name.
- A Paper team packet built by the host's add-or-modify factory is a CREATE (action 0) carrying every member of the host team when `createNew` holds. Otherwise it is an UPDATE (action 2) carrying no members. The remove packet is action 1 and carries no members.
- The Sponge host refuses to add an objective or register a team whose name it already holds; its API documents an exception for both. The model returns `Failure(DuplicateObjective)` or `Failure(DuplicateTeam)` for these.
- Removing a Sponge objective also clears every display slot that showed it. As a result, every operation preserves `Consistent`: each entry is filed under its own name and each slot shows an objective that exists.

Behaviour of the code worth noting:

- The Paper adapter does not refuse a duplicate objective registration. It always builds a fresh handle and sends REGISTER.
- The Paper adapter's update of an objective without a handle assigns one and sends a single UPDATE packet. It sends no REGISTER and no display packet (PaperPacketScoreboard.java:85-91).
- The Sponge adapter checks that an objective exists before changing a score, and does nothing when it does not.
- The anti-override filter rewrites the members of every team action other than UPDATE, including ADD_PLAYER and REMOVE_PLAYER.
- The Adventure conversion is not lossless on raw nodes. `Key.key` places a font without a namespace in "minecraft", so "uniform" and "minecraft:uniform" convert alike. `TextColor.color` keeps only the low 24 bits of the RGB int. The round trip and injectivity are therefore stated up to `AdventureHook.Canonical`, which applies exactly these two normalisations.

## Model

| member | source | states |
|---|---|---|
| `AdventureHook.LoadDecorations` | shared/src/main/java/me/neznamy/tab/shared/hook/AdventureHook.java:28-40 | The table has exactly 32 entries. Entry `i` holds exactly the decorations whose bit is set in `i`. |
| `AdventureHook.DecorationsRoundTrip` | shared/src/main/java/me/neznamy/tab/shared/hook/AdventureHook.java:31-37 | Packing any entry's decorations back into a mask gives the entry's index, so each entry has BOLD iff bit 1, ITALIC iff bit 2, OBFUSCATED iff bit 4, STRIKETHROUGH iff bit 8 and UNDERLINED iff bit 16. |
| `AdventureHook.DecorationsComplete` | shared/src/main/java/me/neznamy/tab/shared/hook/AdventureHook.java:29-39 | Every combination of the five decorations is the entry at its packed mask, so the table covers all 32 combinations. |
| `AdventureHook.DecorationsInjective` | shared/src/main/java/me/neznamy/tab/shared/hook/AdventureHook.java:31-37 | Distinct masks give distinct sets. Mask 0 gives the empty set and mask 31 gives all five decorations. |
| `AdventureHook.ToAdventureComponent` | shared/src/main/java/me/neznamy/tab/shared/hook/AdventureHook.java:50-73 | A wrapped Adventure component is returned unchanged. A plain literal becomes a text node with that text and no colour, decorations, font or children. A structured node keeps its text, mask and child count. |
| `Adventure.ColorOf` | shared/src/main/java/me/neznamy/tab/shared/hook/AdventureHook.java:58 | `TextColor.color(rgb)` gives a 24-bit value, equal to the input when the input is already in range. |
| `Adventure.ColorOfEquality` | shared/src/main/java/me/neznamy/tab/shared/hook/AdventureHook.java:58 | Two RGB ints give the same colour exactly when they differ by a multiple of 2^24. |
| `Adventure.ColonIndex` | shared/src/main/java/me/neznamy/tab/shared/hook/AdventureHook.java:63 | The result is the position of the first colon in the font string, or -1 exactly when there is none. |
| `Adventure.KeyOf` | shared/src/main/java/me/neznamy/tab/shared/hook/AdventureHook.java:63 | `Key.key(font)` always has a non-empty namespace without a colon. A string without a colon lands in "minecraft". A key outside "minecraft" prints back as the string it was parsed from. |
| `Adventure.KeyRoundTrip` | shared/src/main/java/me/neznamy/tab/shared/hook/AdventureHook.java:63 | Parsing a well-formed key's "namespace:value" form gives the key back. |
| `Adventure.KeyOfEquality` | shared/src/main/java/me/neznamy/tab/shared/hook/AdventureHook.java:63 | Two font strings parse to the same key exactly when their parsed keys print alike. |
| `Adventure.DefaultNamespace` | shared/src/main/java/me/neznamy/tab/shared/hook/AdventureHook.java:63 | A font without a colon and the same font prefixed with "minecraft:" parse to the same key. |
| `AdventureHook.ConvertStructured` | shared/src/main/java/me/neznamy/tab/shared/hook/AdventureHook.java:53-72 | Same text. Colour present iff the modifier has one, equal to its RGB when that is a 24-bit value. Decorations pack back to the modifier's mask. Font present iff the modifier has one, as a well-formed key. Children are the extras converted, same count, same order. |
| `AdventureHook.ConvertExtras` | shared/src/main/java/me/neznamy/tab/shared/hook/AdventureHook.java:65-71 | The converted list has one element per extra, and element `i` is the conversion of extra `i`. |
| `AdventureHook.Canonical` | shared/src/main/java/me/neznamy/tab/shared/hook/AdventureHook.java:56-71 | The normal form keeps text, mask, the presence of colour and font, and the shape of the tree, node by node. |
| `AdventureHook.ConvertRoundTrip` | shared/src/main/java/me/neznamy/tab/shared/hook/AdventureHook.java:56-71 | Reading a converted node back gives the node's canonical form. Text, mask and every descendant in order are kept exactly. The colour is kept up to its low 24 bits and the font up to key parsing. |
| `AdventureHook.ConvertExtrasRoundTrip` | shared/src/main/java/me/neznamy/tab/shared/hook/AdventureHook.java:65-71 | Reading a converted child list back gives the canonical forms of the extras, in order. |
| `AdventureHook.ConvertRespectsCanonical` | shared/src/main/java/me/neznamy/tab/shared/hook/AdventureHook.java:56-71 | Nodes with equal canonical forms convert to the same component. |
| `AdventureHook.ConvertExtrasRespectCanonical` | shared/src/main/java/me/neznamy/tab/shared/hook/AdventureHook.java:65-71 | Extra lists with equal canonical forms convert to the same child list. |
| `AdventureHook.ConvertInjective` | shared/src/main/java/me/neznamy/tab/shared/hook/AdventureHook.java:56-71 | Two valid structured nodes convert to the same component exactly when their canonical forms are equal. |
| `AdventureHook.ConvertMergesDefaultNamespace` | shared/src/main/java/me/neznamy/tab/shared/hook/AdventureHook.java:63 | A node with font "v" and the same node with font "minecraft:v" convert to the same component. |
| `SafeScoreboard.OptionsRoundTrip` | sponge8/src/main/java/me/neznamy/tab/platforms/sponge8/SpongeScoreboard.java:111-112 | Friendly fire is bit 0 and see-invisibles is bit 1. Decoding inverts packing, and packing the decoded bits keeps exactly the low two bits of any options value. |
| `PaperPacketScoreboard.RenderTypeOf` | bukkit/paper/src/main/java/me/neznamy/tab/platforms/paper/PaperPacketScoreboard.java:64 | The render type at the health display's ordinal has the health display's name. |
| `PaperPacketScoreboard.FormatOf` | bukkit/paper/src/main/java/me/neznamy/tab/platforms/paper/PaperPacketScoreboard.java:141 | The chat formatting at the colour's ordinal has the colour's name. |
| `PaperPacketScoreboard.CollisionOf` | bukkit/paper/src/main/java/me/neznamy/tab/platforms/paper/PaperPacketScoreboard.java:142 | The host collision rule at the rule's ordinal has the rule's name. |
| `PaperPacketScoreboard.VisibilityOf` | bukkit/paper/src/main/java/me/neznamy/tab/platforms/paper/PaperPacketScoreboard.java:143 | The host visibility at the visibility's ordinal has the visibility's name. |
| `PaperPacketScoreboard.NewPlatformObjective` | bukkit/paper/src/main/java/me/neznamy/tab/platforms/paper/PaperPacketScoreboard.java:58-67 | The new handle has the objective's name and its title rendered for the player's version. Its render type has the health display's name. It has a number format iff the objective has one. |
| `PaperPacketScoreboard.AssignPlatformObjective` | bukkit/paper/src/main/java/me/neznamy/tab/platforms/paper/PaperPacketScoreboard.java:58-69 | The objective's handle becomes the fresh handle, and no other field of the objective changes. |
| `PaperPacketScoreboard.RegisterObjective` | bukkit/paper/src/main/java/me/neznamy/tab/platforms/paper/PaperPacketScoreboard.java:71-75 | A fresh handle is assigned. Exactly two packets are sent: REGISTER for the handle, then the display packet for the objective's slot ordinal and name. |
| `PaperPacketScoreboard.RegisterObjectiveIsFresh` | bukkit/paper/src/main/java/me/neznamy/tab/platforms/paper/PaperPacketScoreboard.java:71-75 | Registering gives the same handle and packets whatever handle the objective had before. |
| `PaperPacketScoreboard.UnregisterObjective` | bukkit/paper/src/main/java/me/neznamy/tab/platforms/paper/PaperPacketScoreboard.java:78-80 | With a handle, exactly one UNREGISTER packet for that handle is sent. Without one, the call fails. |
| `PaperPacketScoreboard.UpdateObjective` | bukkit/paper/src/main/java/me/neznamy/tab/platforms/paper/PaperPacketScoreboard.java:83-92 | Never fails. A missing handle is assigned first. An existing handle keeps its name and number format. Display name and render type are taken from the objective, no other field changes, and exactly one UPDATE packet carrying the handle is sent. |
| `PaperPacketScoreboard.UpdateWithoutHandleHeals` | bukkit/paper/src/main/java/me/neznamy/tab/platforms/paper/PaperPacketScoreboard.java:83-92 | Updating an objective without a handle gives the same objective and the same single UPDATE packet as updating it after registration. No REGISTER or display packet is sent. |
| `PaperPacketScoreboard.SetScore` | bukkit/paper/src/main/java/me/neznamy/tab/platforms/paper/PaperPacketScoreboard.java:95-105 | One SET-SCORE packet carrying holder, objective name and value unchanged. Display name and number format are present iff the score has them. |
| `PaperPacketScoreboard.RemoveScore` | bukkit/paper/src/main/java/me/neznamy/tab/platforms/paper/PaperPacketScoreboard.java:108-110 | Exactly one RESET-SCORE packet keyed by holder and objective name. |
| `PaperPacketScoreboard.CreateTeam` | bukkit/paper/src/main/java/me/neznamy/tab/platforms/paper/PaperPacketScoreboard.java:113-116 | Returns a host team with the given name, no members and unsynchronised properties. No packet is sent. |
| `PaperPacketScoreboard.SyncedProperties` | bukkit/paper/src/main/java/me/neznamy/tab/platforms/paper/PaperPacketScoreboard.java:137-146 | Friendly fire is set iff `options & 1` is non-zero and see-invisibles iff `options & 2` is non-zero. Colour, collision and visibility are the same-named host constants. Prefix and suffix are rendered for the player's version. |
| `PaperPacketScoreboard.UpdateTeamProperties` | bukkit/paper/src/main/java/me/neznamy/tab/platforms/paper/PaperPacketScoreboard.java:137-146 | The host team's properties become the synchronised ones. Its name and players are unchanged. |
| `PaperPacketScoreboard.AddOrModifyPacket` | bukkit/paper/src/main/java/me/neznamy/tab/platforms/paper/PaperPacketScoreboard.java:123 | The packet carries the host team's name and properties. With `createNew` it is a CREATE carrying every member. Otherwise it is an UPDATE carrying none. |
| `PaperPacketScoreboard.RemovePacket` | bukkit/paper/src/main/java/me/neznamy/tab/platforms/paper/PaperPacketScoreboard.java:128 | A REMOVE packet for the team's name, with no parameters and no members. |
| `PaperPacketScoreboard.RegisterTeam` | bukkit/paper/src/main/java/me/neznamy/tab/platforms/paper/PaperPacketScoreboard.java:119-124 | Properties are synchronised. The host team's members become its old members plus every team member. Exactly one CREATE packet is then built from that host team. Nothing else in the team changes. |
| `PaperPacketScoreboard.UnregisterTeam` | bukkit/paper/src/main/java/me/neznamy/tab/platforms/paper/PaperPacketScoreboard.java:127-129 | Exactly one REMOVE packet for the host team's name. |
| `PaperPacketScoreboard.UpdateTeam` | bukkit/paper/src/main/java/me/neznamy/tab/platforms/paper/PaperPacketScoreboard.java:132-135 | Properties are synchronised and the host team's members are unchanged. Exactly one UPDATE packet with the synchronised properties and no members is sent. |
| `PaperPacketScoreboard.OnPacketSend` | bukkit/paper/src/main/java/me/neznamy/tab/platforms/paper/PaperPacketScoreboard.java:150-164 | Notifications are raised iff objective anti-override is on and the packet is a display or objective packet, with the slot ordinal or action and the objective name. Non-team packets are never changed. Team packets are unchanged when team anti-override is off or the action is UPDATE. Otherwise the members are replaced by the upstream answer for (action, name, current members or empty). |
| `PaperPacketScoreboard.Transmit` | bukkit/paper/src/main/java/me/neznamy/tab/platforms/paper/PaperPacketScoreboard.java:150-168 | Every packet sent passes the filter: there is one outgoing packet per packet sent. The total number of notifications is at most the number of packets. |
| `PaperPacketScoreboard.TransmitPointwise` | bukkit/paper/src/main/java/me/neznamy/tab/platforms/paper/PaperPacketScoreboard.java:150-168 | The outgoing packet at each position is the filter's result for the packet sent at that position, so order is kept. |
| `PaperPacketScoreboard.TransmitDisabledIsIdentity` | bukkit/paper/src/main/java/me/neznamy/tab/platforms/paper/PaperPacketScoreboard.java:151-163 | With team anti-override off, every packet leaves exactly as sent. With objective anti-override off, nothing is notified. |
| `PaperPacketScoreboard.TransmitAppendPackets` | bukkit/paper/src/main/java/me/neznamy/tab/platforms/paper/PaperPacketScoreboard.java:166-168 | Sending two batches in turn gives the same output as sending their concatenation. |
| `PaperPacketScoreboard.TransmitAppendNotifications` | bukkit/paper/src/main/java/me/neznamy/tab/platforms/paper/PaperPacketScoreboard.java:150-158 | Notifications for two batches sent in turn come in the order of the concatenated batch. |
| `PaperPacketScoreboard.ScorePacketsPassFilter` | bukkit/paper/src/main/java/me/neznamy/tab/platforms/paper/PaperPacketScoreboard.java:95-164 | The packets sent by `setScore` and `removeScore` leave the filter unchanged and raise no notification. |
| `PaperPacketScoreboard.OwnTeamUpdatePassesFilter` | bukkit/paper/src/main/java/me/neznamy/tab/platforms/paper/PaperPacketScoreboard.java:132-164 | The adapter's own UPDATE team packet leaves the filter unchanged. |
| `PaperPacketScoreboard.OwnTeamRegisterIsCorrected` | bukkit/paper/src/main/java/me/neznamy/tab/platforms/paper/PaperPacketScoreboard.java:119-164 | With team anti-override on, the adapter's own CREATE packet leaves with the upstream answer for (CREATE, name, host team members) as its members. |
| `PaperPacketScoreboard.OwnTeamUnregisterIsCorrected` | bukkit/paper/src/main/java/me/neznamy/tab/platforms/paper/PaperPacketScoreboard.java:127-163 | With team anti-override on, the adapter's own REMOVE packet leaves with the upstream answer for (REMOVE, name, empty) as its members. |
| `PaperPacketScoreboard.CreateThenRegister` | bukkit/paper/src/main/java/me/neznamy/tab/platforms/paper/PaperPacketScoreboard.java:114-124 | Registering a team whose host team was just created sends one CREATE under the team's name, with the synchronised properties and exactly the team's players. |
| `PaperPacketScoreboard.OwnObjectiveRegisterNotifies` | bukkit/paper/src/main/java/me/neznamy/tab/platforms/paper/PaperPacketScoreboard.java:71-158 | With objective anti-override on, registering leaves both packets unchanged and notifies REGISTER under the name, then the display slot ordinal and name, in that order. |
| `PaperPacketScoreboard.OwnObjectiveUnregisterAndUpdateNotify` | bukkit/paper/src/main/java/me/neznamy/tab/platforms/paper/PaperPacketScoreboard.java:78-158 | With objective anti-override on, unregistering notifies exactly UNREGISTER under the handle's name. Updating notifies exactly UPDATE under the handle's name, or under the objective's name when a handle is first assigned. |
| `SpongeScoreboard.CollisionRuleOf` | sponge8/src/main/java/me/neznamy/tab/platforms/sponge8/SpongeScoreboard.java:24-29 | The collision table at the rule's ordinal holds the host rule of the same name: ALWAYS, NEVER, PUSH_OTHER_TEAMS, PUSH_OWN_TEAM. |
| `SpongeScoreboard.VisibilityOf` | sponge8/src/main/java/me/neznamy/tab/platforms/sponge8/SpongeScoreboard.java:32-37 | The visibility table at the visibility's ordinal holds the same-named host visibility: ALWAYS, NEVER, HIDE_FOR_OTHER_TEAMS, HIDE_FOR_OWN_TEAM. |
| `SpongeScoreboard.DisplaySlotOf` | sponge8/src/main/java/me/neznamy/tab/platforms/sponge8/SpongeScoreboard.java:40-44 | The slot table at the slot's ordinal holds the same-named host slot: LIST, SIDEBAR, BELOW_NAME. |
| `SpongeScoreboard.DisplayModeOf` | sponge8/src/main/java/me/neznamy/tab/platforms/sponge8/SpongeScoreboard.java:47-50 | The mode table at the health display's ordinal holds the same-named host mode: INTEGER, HEARTS. |
| `SpongeScoreboard.ColorOf` | sponge8/src/main/java/me/neznamy/tab/platforms/sponge8/SpongeScoreboard.java:110 | The host colour indexed under the colour's name, or WHITE when the index has no such name. |
| `SpongeScoreboard.RegisterObjective` | sponge8/src/main/java/me/neznamy/tab/platforms/sponge8/SpongeScoreboard.java:69-78 | Fails iff the name is taken. Otherwise it adds an objective under the name, with the rendered name (not the title) as display text, the same-named display mode and no scores. It shows the objective in the same-named slot and leaves teams alone. |
| `SpongeScoreboard.UnregisterObjective` | sponge8/src/main/java/me/neznamy/tab/platforms/sponge8/SpongeScoreboard.java:81-83 | Does nothing when the name is absent. Otherwise only that objective, and the slots showing it, are removed. |
| `SpongeScoreboard.UpdateObjective` | sponge8/src/main/java/me/neznamy/tab/platforms/sponge8/SpongeScoreboard.java:86-91 | Does nothing when the name is absent. Otherwise only that objective's display text (its rendered name) and display mode change. |
| `SpongeScoreboard.SetScore` | sponge8/src/main/java/me/neznamy/tab/platforms/sponge8/SpongeScoreboard.java:94-96 | Does nothing when the objective is absent. Otherwise only the holder's score in that objective changes, to the value. |
| `SpongeScoreboard.RemoveScore` | sponge8/src/main/java/me/neznamy/tab/platforms/sponge8/SpongeScoreboard.java:99-101 | Does nothing when the objective is absent. Otherwise only the holder's score in that objective is removed. |
| `SpongeScoreboard.AddMembers` | sponge8/src/main/java/me/neznamy/tab/platforms/sponge8/SpongeScoreboard.java:116-118 | The team gains exactly the rendered members and keeps every other field. |
| `SpongeScoreboard.BuildTeam` | sponge8/src/main/java/me/neznamy/tab/platforms/sponge8/SpongeScoreboard.java:105-115 | The host team is named after the team with its rendered name as display name. It has the rendered prefix and suffix and the indexed colour with WHITE fallback. Friendly fire is bit 0 and see-invisibles bit 1. Collision and visibility are the same-named rules. It has no members yet. |
| `SpongeScoreboard.RegisterTeam` | sponge8/src/main/java/me/neznamy/tab/platforms/sponge8/SpongeScoreboard.java:104-120 | Fails iff the name is taken. Otherwise it registers the built team already holding exactly the rendered members, and changes nothing else. |
| `SpongeScoreboard.UnregisterTeam` | sponge8/src/main/java/me/neznamy/tab/platforms/sponge8/SpongeScoreboard.java:123-125 | Does nothing when the team is absent. Otherwise only that team is removed. |
| `SpongeScoreboard.UpdateTeam` | sponge8/src/main/java/me/neznamy/tab/platforms/sponge8/SpongeScoreboard.java:128-139 | Does nothing when the team is absent. Otherwise it sets display name, prefix, suffix, colour, both option bits, collision and visibility as registration would, keeps name and members, and touches no other team. |
| `SpongeScoreboard.RegisterUnregisterRegister` | sponge8/src/main/java/me/neznamy/tab/platforms/sponge8/SpongeScoreboard.java:69-83 | Registering a free name succeeds. Registering it again fails. Registering it after unregistering it succeeds. |
| `SpongeScoreboard.ScoreOperationsOverwrite` | sponge8/src/main/java/me/neznamy/tab/platforms/sponge8/SpongeScoreboard.java:94-101 | Removing a score right after setting it is the same as only removing it. Setting the same score twice is setting it once. |
| `SpongeScoreboard.UpdateObjectiveIdempotent` | sponge8/src/main/java/me/neznamy/tab/platforms/sponge8/SpongeScoreboard.java:86-91 | Updating an objective twice is the same as updating it once. |
| `SpongeScoreboard.UpdateTeamIdempotent` | sponge8/src/main/java/me/neznamy/tab/platforms/sponge8/SpongeScoreboard.java:128-139 | Updating a team twice is the same as updating it once. |

## Left out

- Physical sending of packets through the player's connection. A packet list is returned instead.
- Reflection: the static field lookup and the reflective read of a team packet's action and write of its players. The packet is a record whose players field is replaced.
- The reflective `findOrCreateScore` fallback for newer Sponge versions. Scores are keyed by holder name.
- Version-aware text rendering and `TabComponent.optimized`. Rendering is uninterpreted: `RenderedText` records only its input and the version.
- Host object internals: the dummy scoreboard, criteria DUMMY, the display-auto-update flag and the default properties of a new host team.
- Character validation in `Key.key`. A font with characters outside the key alphabet makes the library throw `InvalidKeyException`; the model accepts every string. `TextColor.color` returning a named colour instance for named RGB values is not modelled either, since only the 24-bit value takes part in equality.
- SpongeScoreboard.BuildTeam, SpongeScoreboard.UpdateTeam and PaperPacketScoreboard.SyncedProperties: the prefix, suffix and colour types of the two adapters are unified. Sponge renders prefix and suffix from strings with `adventure(String)` (SpongeScoreboard.java:107-108, 128-129), and Paper converts component prefixes with `convert` (PaperPacketScoreboard.java:144-145). The model gives `Team` one `TabComponent` prefix and suffix rendered with `Converted` for both adapters. Paper's `getColor().getLegacyColor()` (PaperPacketScoreboard.java:141) and Sponge's `getColor().name()` (SpongeScoreboard.java:109, 130) both read one `LegacyColor` field. The mapping from the plugin's colour type to its legacy colour is not modelled.
- The contents of the host's colour-name index. It is a parameter; only the WHITE fallback is fixed.
- Conversion of number formats to the host's fixed format. It is opaque.
- The feature manager's notification handlers and `onTeamPacket`. Notifications are returned as values and `onTeamPacket` is a function parameter.
- The Sponge constructor's assignment of the scoreboard to the player, and per-player threading.
- `PaperPacketScoreboard.UpdateObjective`: "keeps the same handle" is stated as "keeps the handle's name and number format and changes only display name and render type". Handles are values here, without object identity.
- `PaperPacketScoreboard.RegisterObjectiveIsFresh`: "creates a fresh handle" is stated as "the result does not depend on any earlier handle". Allocation is not modelled.
