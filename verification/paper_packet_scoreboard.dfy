/** The Paper adapter: scoreboard operations become outbound packets, and
    every outbound packet passes the anti-override filter. The host enums the
    adapter indexes by ordinal (`values()[ordinal]`) are modelled as tables
    that list their constants in declaration order. */
module PaperPacketScoreboard {
  import opened Wrappers
  import opened Chat
  import opened SafeScoreboard

  /** The host's objective render type. */
  datatype RenderType = RenderInteger | RenderHearts {
    function Name(): string {
      match this
      case RenderInteger => "INTEGER"
      case RenderHearts => "HEARTS"
    }
  }

  /** The host's team collision rule. */
  datatype HostCollisionRule = HostAlways | HostNever | HostPushOtherTeams | HostPushOwnTeam {
    function Name(): string {
      match this
      case HostAlways => "ALWAYS"
      case HostNever => "NEVER"
      case HostPushOtherTeams => "PUSH_OTHER_TEAMS"
      case HostPushOwnTeam => "PUSH_OWN_TEAM"
    }
  }

  /** The host's name tag visibility. */
  datatype HostVisibility = HostShowAlways | HostShowNever | HostHideForOtherTeams | HostHideForOwnTeam {
    function Name(): string {
      match this
      case HostShowAlways => "ALWAYS"
      case HostShowNever => "NEVER"
      case HostHideForOtherTeams => "HIDE_FOR_OTHER_TEAMS"
      case HostHideForOwnTeam => "HIDE_FOR_OWN_TEAM"
    }
  }

  /** The host's chat formatting constants; the colour of a team. */
  datatype ChatFormatting = ChatFormatting(name: string)

  const RenderTypes: seq<RenderType> := [RenderInteger, RenderHearts]

  const Collisions: seq<HostCollisionRule> := [HostAlways, HostNever, HostPushOtherTeams, HostPushOwnTeam]

  const Visibilities: seq<HostVisibility> := [HostShowAlways, HostShowNever, HostHideForOtherTeams, HostHideForOwnTeam]

  const Formats: seq<ChatFormatting> := [
    ChatFormatting("BLACK"), ChatFormatting("DARK_BLUE"), ChatFormatting("DARK_GREEN"),
    ChatFormatting("DARK_AQUA"), ChatFormatting("DARK_RED"), ChatFormatting("DARK_PURPLE"),
    ChatFormatting("GOLD"), ChatFormatting("GRAY"), ChatFormatting("DARK_GRAY"),
    ChatFormatting("BLUE"), ChatFormatting("GREEN"), ChatFormatting("AQUA"),
    ChatFormatting("RED"), ChatFormatting("LIGHT_PURPLE"), ChatFormatting("YELLOW"),
    ChatFormatting("WHITE"), ChatFormatting("OBFUSCATED"), ChatFormatting("BOLD"),
    ChatFormatting("STRIKETHROUGH"), ChatFormatting("UNDERLINE"), ChatFormatting("ITALIC"),
    ChatFormatting("RESET")]

  /** The render type at the health display's ordinal has the same name. */
  function RenderTypeOf(h: HealthDisplay): (r: RenderType)
    ensures r.Name() == h.Name()
  {
    RenderTypes[h.Ordinal()]
  }

  /** The collision rule at the rule's ordinal has the same name. */
  function CollisionOf(c: CollisionRule): (r: HostCollisionRule)
    ensures r.Name() == c.Name()
  {
    Collisions[c.Ordinal()]
  }

  /** The visibility at the visibility's ordinal has the same name. */
  function VisibilityOf(v: NameVisibility): (r: HostVisibility)
    ensures r.Name() == v.Name()
  {
    Visibilities[v.Ordinal()]
  }

  /** The formatting at the colour's ordinal has the same name. */
  function FormatOf(c: LegacyColor): (r: ChatFormatting)
    ensures r.name == c.Name()
  {
    Formats[c.Ordinal()]
  }

  /** A number format converted to the host's fixed format; the conversion
      itself is opaque. */
  datatype FixedFormat = FixedFormat(source: NumberFormat)

  /** The host objective that serves as an objective's platform handle. */
  datatype PlatformObjective = PlatformObjective(
    name: string,
    displayName: RenderedText,
    renderType: RenderType,
    numberFormat: Option<FixedFormat>)

  /** Team properties as they are set on the host team. */
  datatype TeamProperties = TeamProperties(
    allowFriendlyFire: bool,
    seeFriendlyInvisibles: bool,
    color: ChatFormatting,
    collisionRule: HostCollisionRule,
    nameTagVisibility: HostVisibility,
    prefix: RenderedText,
    suffix: RenderedText)

  /** The host team that serves as a team's platform handle. Its properties
      are `None` until first synchronised (the host's defaults are not
      modelled); its players form a set. */
  datatype PlatformTeam = PlatformTeam(
    name: string,
    properties: Option<TeamProperties>,
    players: set<string>)

  /** Outbound packets. A team packet's `players` is `None` where the host
      packet holds no collection. */
  datatype Packet =
    | SetObjectivePacket(objective: PlatformObjective, action: int)
    | SetDisplayObjectivePacket(slot: nat, objectiveName: string)
    | SetScorePacket(owner: string, objectiveName: string, score: int,
                     display: Option<RenderedText>, numberFormat: Option<FixedFormat>)
    | ResetScorePacket(owner: string, objectiveName: string)
    | SetPlayerTeamPacket(name: string, action: int, parameters: Option<TeamProperties>,
                          players: Option<set<string>>)

  /** Events the filter forwards to the plugin's features. */
  datatype Notification =
    | DisplayObjectiveSeen(slot: nat, objectiveName: string)
    | ObjectiveSeen(action: int, objectiveName: string)

  /** One player's adapter: the version text is rendered for, and whether
      anti-override is on for objectives and for teams. */
  datatype PaperScoreboard = PaperScoreboard(
    version: ProtocolVersion,
    antiOverrideScoreboard: bool,
    antiOverrideTeams: bool)

  /** An updated entity with the packets sent, in order. */
  datatype Emitted<T> = Emitted(value: T, packets: seq<Packet>)

  type PaperObjective = Objective<PlatformObjective>

  type PaperTeam = Team<PlatformTeam>

  /** A fresh host objective built from the objective's current fields. */
  function NewPlatformObjective(sb: PaperScoreboard, o: PaperObjective): (h: PlatformObjective)
    ensures h.name == o.name
    ensures h.displayName == Converted(o.title, sb.version)
    ensures h.renderType.Name() == o.healthDisplay.Name()
    ensures h.numberFormat.Some? <==> o.numberFormat.Some?
    ensures o.numberFormat.Some? ==> h.numberFormat.value.source == o.numberFormat.value
  {
    PlatformObjective(
      o.name,
      Converted(o.title, sb.version),
      RenderTypeOf(o.healthDisplay),
      if o.numberFormat.None? then None else Some(FixedFormat(o.numberFormat.value)))
  }

  /** Stores a fresh handle in the objective. */
  function AssignPlatformObjective(sb: PaperScoreboard, o: PaperObjective): (r: PaperObjective)
    ensures r.platformObjective == Some(NewPlatformObjective(sb, o))
    ensures r.(platformObjective := o.platformObjective) == o
  {
    o.(platformObjective := Some(NewPlatformObjective(sb, o)))
  }

  /** Creates a fresh handle, then sends REGISTER for it followed by the
      display packet for the objective's slot. */
  function RegisterObjective(sb: PaperScoreboard, o: PaperObjective): (e: Emitted<PaperObjective>)
    ensures e.value == AssignPlatformObjective(sb, o)
    ensures |e.packets| == 2
    ensures e.packets[0] == SetObjectivePacket(NewPlatformObjective(sb, o), REGISTER)
    ensures e.packets[1] == SetDisplayObjectivePacket(o.displaySlot.Ordinal(), o.name)
  {
    var registered := AssignPlatformObjective(sb, o);
    var handle := registered.platformObjective.value;
    Emitted(registered, [
      SetObjectivePacket(handle, REGISTER),
      SetDisplayObjectivePacket(o.displaySlot.Ordinal(), handle.name)])
  }

  /** Sends UNREGISTER for the objective's handle. Without a handle the
      packet cannot be built, which the Java code meets as a null pointer. */
  function UnregisterObjective(sb: PaperScoreboard, o: PaperObjective): (r: Result<seq<Packet>, ScoreboardError>)
    ensures o.platformObjective.None? <==> r == Failure(MissingPlatformObjective)
    ensures o.platformObjective.Some? ==> r == Success([SetObjectivePacket(o.platformObjective.value, UNREGISTER)])
  {
    if o.platformObjective.None? then Failure(MissingPlatformObjective)
    else Success([SetObjectivePacket(o.platformObjective.value, UNREGISTER)])
  }

  /** Takes the objective's handle, assigning one first if it has none, sets
      its display name and render type from the objective and sends one
      UPDATE packet. */
  function UpdateObjective(sb: PaperScoreboard, o: PaperObjective): (e: Emitted<PaperObjective>)
    ensures e.value.platformObjective.Some?
    ensures e.value.(platformObjective := o.platformObjective) == o
    ensures e.value.platformObjective.value.displayName == Converted(o.title, sb.version)
    ensures e.value.platformObjective.value.renderType.Name() == o.healthDisplay.Name()
    ensures o.platformObjective.Some? ==>
      e.value.platformObjective.value.name == o.platformObjective.value.name
      && e.value.platformObjective.value.numberFormat == o.platformObjective.value.numberFormat
    ensures o.platformObjective.None? ==> e.value.platformObjective.value == NewPlatformObjective(sb, o)
    ensures e.packets == [SetObjectivePacket(e.value.platformObjective.value, UPDATE)]
  {
    var withHandle := if o.platformObjective.None? then AssignPlatformObjective(sb, o) else o;
    var handle := withHandle.platformObjective.value
      .(displayName := Converted(o.title, sb.version), renderType := RenderTypeOf(o.healthDisplay));
    var updated := withHandle.(platformObjective := Some(handle));
    Emitted(updated, [SetObjectivePacket(handle, UPDATE)])
  }

  /** Registering ignores any handle the objective already had. */
  lemma RegisterObjectiveIsFresh(sb: PaperScoreboard, o: PaperObjective, h: Option<PlatformObjective>)
    ensures RegisterObjective(sb, o.(platformObjective := h)).packets == RegisterObjective(sb, o).packets
    ensures RegisterObjective(sb, o.(platformObjective := h)).value == RegisterObjective(sb, o).value
  {
  }

  /** Updating an objective that has no handle ends in the same objective and
      sends the same single UPDATE packet as updating it after registration.
      No REGISTER or display packet is sent, so the client never learns of
      the objective the update refers to. */
  lemma UpdateWithoutHandleHeals(sb: PaperScoreboard, o: PaperObjective)
    requires o.platformObjective.None?
    ensures UpdateObjective(sb, o) == UpdateObjective(sb, RegisterObjective(sb, o).value)
    ensures |UpdateObjective(sb, o).packets| == 1
    ensures UpdateObjective(sb, o).packets[0].SetObjectivePacket?
    ensures UpdateObjective(sb, o).packets[0].action == UPDATE
  {
  }

  /** One SET-SCORE packet carrying the score unchanged; display name and
      number format are present exactly when the score has them. */
  function SetScore(sb: PaperScoreboard, s: Score): (ps: seq<Packet>)
    ensures |ps| == 1 && ps[0].SetScorePacket?
    ensures ps[0].owner == s.holder && ps[0].objectiveName == s.objective && ps[0].score == s.value
    ensures ps[0].display.Some? <==> s.displayName.Some?
    ensures s.displayName.Some? ==> ps[0].display.value == Converted(s.displayName.value, sb.version)
    ensures ps[0].numberFormat.Some? <==> s.numberFormat.Some?
    ensures s.numberFormat.Some? ==> ps[0].numberFormat.value.source == s.numberFormat.value
  {
    [SetScorePacket(
      s.holder,
      s.objective,
      s.value,
      if s.displayName.None? then None else Some(Converted(s.displayName.value, sb.version)),
      if s.numberFormat.None? then None else Some(FixedFormat(s.numberFormat.value)))]
  }

  /** One RESET-SCORE packet for the holder under the objective. */
  function RemoveScore(sb: PaperScoreboard, s: Score): (ps: seq<Packet>)
    ensures ps == [ResetScorePacket(s.holder, s.objective)]
  {
    [ResetScorePacket(s.holder, s.objective)]
  }

  /** A new host team with the given name, no members and properties not yet
      set; nothing is sent. */
  function CreateTeam(name: string): (t: PlatformTeam)
    ensures t.name == name
    ensures t.players == {}
    ensures t.properties.None?
  {
    PlatformTeam(name, None, {})
  }

  /** The host team's properties after synchronising with `team`. */
  function SyncedProperties(sb: PaperScoreboard, team: PaperTeam): (p: TeamProperties)
    ensures p.allowFriendlyFire <==> AllowFriendlyFire(team.options)
    ensures p.seeFriendlyInvisibles <==> SeeFriendlyInvisibles(team.options)
    ensures p.color.name == team.color.Name()
    ensures p.collisionRule.Name() == team.collision.Name()
    ensures p.nameTagVisibility.Name() == team.visibility.Name()
    ensures p.prefix == Converted(team.prefix, sb.version)
    ensures p.suffix == Converted(team.suffix, sb.version)
  {
    TeamProperties(
      AllowFriendlyFire(team.options),
      SeeFriendlyInvisibles(team.options),
      FormatOf(team.color),
      CollisionOf(team.collision),
      VisibilityOf(team.visibility),
      Converted(team.prefix, sb.version),
      Converted(team.suffix, sb.version))
  }

  /** Sets every property on the team's host team; its name and players are
      left as they were. */
  function UpdateTeamProperties(sb: PaperScoreboard, team: PaperTeam): (t: PlatformTeam)
    ensures t.name == team.platformTeam.name
    ensures t.players == team.platformTeam.players
    ensures t.properties == Some(SyncedProperties(sb, team))
  {
    team.platformTeam.(properties := Some(SyncedProperties(sb, team)))
  }

  /** The host's add-or-modify team packet: when `createNew` it is a CREATE
      carrying every member, otherwise an UPDATE carrying none. */
  function AddOrModifyPacket(t: PlatformTeam, createNew: bool): (p: Packet)
    ensures p.SetPlayerTeamPacket? && p.name == t.name && p.parameters == t.properties
    ensures p.action == CREATE <==> createNew
    ensures p.action == TEAM_UPDATE <==> !createNew
    ensures p.players == Some(if createNew then t.players else {})
  {
    SetPlayerTeamPacket(t.name, if createNew then CREATE else TEAM_UPDATE, t.properties,
                        Some(if createNew then t.players else {}))
  }

  /** The host's remove team packet. */
  function RemovePacket(t: PlatformTeam): (p: Packet)
    ensures p == SetPlayerTeamPacket(t.name, REMOVE, None, Some({}))
  {
    SetPlayerTeamPacket(t.name, REMOVE, None, Some({}))
  }

  /** Synchronises properties, adds every member to the host team and only
      then sends one CREATE packet, which carries the full membership. */
  function RegisterTeam(sb: PaperScoreboard, team: PaperTeam): (e: Emitted<PaperTeam>)
    ensures e.value.(platformTeam := team.platformTeam) == team
    ensures e.value.platformTeam.name == team.platformTeam.name
    ensures e.value.platformTeam.properties == Some(SyncedProperties(sb, team))
    ensures forall p :: p in e.value.platformTeam.players <==> p in team.platformTeam.players || p in team.players
    ensures e.packets == [AddOrModifyPacket(e.value.platformTeam, true)]
  {
    var synced := UpdateTeamProperties(sb, team);
    var filled := synced.(players := synced.players + set p | p in team.players);
    Emitted(team.(platformTeam := filled), [AddOrModifyPacket(filled, true)])
  }

  /** Sends one REMOVE packet for the team. */
  function UnregisterTeam(sb: PaperScoreboard, team: PaperTeam): (ps: seq<Packet>)
    ensures ps == [SetPlayerTeamPacket(team.platformTeam.name, REMOVE, None, Some({}))]
  {
    [RemovePacket(team.platformTeam)]
  }

  /** Synchronises properties and sends one UPDATE packet; membership of the
      host team is not touched and the packet carries no members. */
  function UpdateTeam(sb: PaperScoreboard, team: PaperTeam): (e: Emitted<PaperTeam>)
    ensures e.value.(platformTeam := team.platformTeam) == team
    ensures e.value.platformTeam.players == team.platformTeam.players
    ensures e.value.platformTeam.properties == Some(SyncedProperties(sb, team))
    ensures e.packets == [SetPlayerTeamPacket(team.platformTeam.name, TEAM_UPDATE, Some(SyncedProperties(sb, team)), Some({}))]
  {
    var synced := UpdateTeamProperties(sb, team);
    Emitted(team.(platformTeam := synced), [AddOrModifyPacket(synced, false)])
  }

  /** A packet after the filter, with the notifications it raised. */
  datatype Filtered = Filtered(packet: Packet, notifications: seq<Notification>)

  /** The anti-override filter applied to one outbound packet. With
      anti-override for objectives on, display and objective packets raise a
      notification. With anti-override for teams on, a team packet other than
      UPDATE has its players replaced by `onTeamPacket(action, name, players)`,
      where absent players count as an empty collection. */
  function OnPacketSend(sb: PaperScoreboard, p: Packet, onTeamPacket: (int, string, set<string>) -> set<string>): (f: Filtered)
    ensures !p.SetPlayerTeamPacket? ==> f.packet == p
    ensures p.SetPlayerTeamPacket? && (!sb.antiOverrideTeams || p.action == TEAM_UPDATE) ==> f.packet == p
    ensures p.SetPlayerTeamPacket? && sb.antiOverrideTeams && p.action != TEAM_UPDATE ==>
      f.packet == p.(players := Some(onTeamPacket(p.action, p.name, if p.players.None? then {} else p.players.value)))
    ensures f.notifications == [] <==>
      !sb.antiOverrideScoreboard || !(p.SetDisplayObjectivePacket? || p.SetObjectivePacket?)
    ensures sb.antiOverrideScoreboard && p.SetDisplayObjectivePacket? ==>
      f.notifications == [DisplayObjectiveSeen(p.slot, p.objectiveName)]
    ensures sb.antiOverrideScoreboard && p.SetObjectivePacket? ==>
      f.notifications == [ObjectiveSeen(p.action, p.objective.name)]
  {
    var notifications :=
      if !sb.antiOverrideScoreboard then []
      else if p.SetDisplayObjectivePacket? then [DisplayObjectiveSeen(p.slot, p.objectiveName)]
      else if p.SetObjectivePacket? then [ObjectiveSeen(p.action, p.objective.name)]
      else [];
    if sb.antiOverrideTeams && p.SetPlayerTeamPacket? && p.action != TEAM_UPDATE then
      var current := if p.players.None? then {} else p.players.value;
      Filtered(p.(players := Some(onTeamPacket(p.action, p.name, current))), notifications)
    else
      Filtered(p, notifications)
  }

  /** Packets and notifications after the filter has seen a batch of packets. */
  datatype Transmitted = Transmitted(packets: seq<Packet>, notifications: seq<Notification>)

  /** Every packet passes the filter on its way out, in the order sent. */
  function Transmit(sb: PaperScoreboard, ps: seq<Packet>, onTeamPacket: (int, string, set<string>) -> set<string>): (t: Transmitted)
    ensures |t.packets| == |ps|
    ensures |t.notifications| <= |ps|
  {
    if |ps| == 0 then Transmitted([], [])
    else
      var first := OnPacketSend(sb, ps[0], onTeamPacket);
      var rest := Transmit(sb, ps[1..], onTeamPacket);
      Transmitted([first.packet] + rest.packets, first.notifications + rest.notifications)
  }

  /** The packet at each position leaves as the filter makes it. */
  lemma {:induction false} TransmitPointwise(sb: PaperScoreboard, ps: seq<Packet>, onTeamPacket: (int, string, set<string>) -> set<string>)
    ensures forall i :: 0 <= i < |ps| ==>
      Transmit(sb, ps, onTeamPacket).packets[i] == OnPacketSend(sb, ps[i], onTeamPacket).packet
  {
    if |ps| > 0 {
      TransmitPointwise(sb, ps[1..], onTeamPacket);
      var out := Transmit(sb, ps, onTeamPacket).packets;
      var rest := Transmit(sb, ps[1..], onTeamPacket).packets;
      assert out == [OnPacketSend(sb, ps[0], onTeamPacket).packet] + rest;
      forall i | 1 <= i < |ps|
        ensures out[i] == OnPacketSend(sb, ps[i], onTeamPacket).packet
      {
        assert out[i] == rest[i - 1];
        assert ps[1..][i - 1] == ps[i];
      }
    }
  }

  /** With anti-override for teams off every packet goes out as sent; with
      anti-override for objectives off nothing is notified. */
  lemma {:induction false} TransmitDisabledIsIdentity(sb: PaperScoreboard, ps: seq<Packet>, onTeamPacket: (int, string, set<string>) -> set<string>)
    ensures !sb.antiOverrideTeams ==> Transmit(sb, ps, onTeamPacket).packets == ps
    ensures !sb.antiOverrideScoreboard ==> Transmit(sb, ps, onTeamPacket).notifications == []
  {
    if |ps| > 0 {
      TransmitDisabledIsIdentity(sb, ps[1..], onTeamPacket);
      assert ps == [ps[0]] + ps[1..];
    }
  }

  lemma AppendTail<T>(a: seq<T>, b: seq<T>)
    requires |a| > 0
    ensures (a + b)[0] == a[0]
    ensures (a + b)[1..] == a[1..] + b
  {
  }

  /** Sending two batches one after the other is sending their
      concatenation: packets leave in the order they were sent. */
  lemma {:induction false} TransmitAppendPackets(sb: PaperScoreboard, ps: seq<Packet>, qs: seq<Packet>, onTeamPacket: (int, string, set<string>) -> set<string>)
    ensures Transmit(sb, ps + qs, onTeamPacket).packets
      == Transmit(sb, ps, onTeamPacket).packets + Transmit(sb, qs, onTeamPacket).packets
  {
    if |ps| == 0 {
      assert ps + qs == qs;
    } else {
      var first := OnPacketSend(sb, ps[0], onTeamPacket).packet;
      AppendTail(ps, qs);
      TransmitAppendPackets(sb, ps[1..], qs, onTeamPacket);
      assert Transmit(sb, ps + qs, onTeamPacket).packets == [first] + Transmit(sb, ps[1..] + qs, onTeamPacket).packets;
      assert Transmit(sb, ps, onTeamPacket).packets == [first] + Transmit(sb, ps[1..], onTeamPacket).packets;
    }
  }

  /** Notifications, too, are raised in the order the packets were sent. */
  lemma {:induction false} TransmitAppendNotifications(sb: PaperScoreboard, ps: seq<Packet>, qs: seq<Packet>, onTeamPacket: (int, string, set<string>) -> set<string>)
    ensures Transmit(sb, ps + qs, onTeamPacket).notifications
      == Transmit(sb, ps, onTeamPacket).notifications + Transmit(sb, qs, onTeamPacket).notifications
  {
    if |ps| == 0 {
      assert ps + qs == qs;
    } else {
      var first := OnPacketSend(sb, ps[0], onTeamPacket).notifications;
      AppendTail(ps, qs);
      TransmitAppendNotifications(sb, ps[1..], qs, onTeamPacket);
      assert Transmit(sb, ps + qs, onTeamPacket).notifications == first + Transmit(sb, ps[1..] + qs, onTeamPacket).notifications;
      assert Transmit(sb, ps, onTeamPacket).notifications == first + Transmit(sb, ps[1..], onTeamPacket).notifications;
    }
  }

  /** Score packets leave the filter unchanged and raise no notification. */
  lemma ScorePacketsPassFilter(sb: PaperScoreboard, s: Score, onTeamPacket: (int, string, set<string>) -> set<string>)
    ensures OnPacketSend(sb, SetScore(sb, s)[0], onTeamPacket) == Filtered(SetScore(sb, s)[0], [])
    ensures OnPacketSend(sb, RemoveScore(sb, s)[0], onTeamPacket) == Filtered(RemoveScore(sb, s)[0], [])
  {
  }

  /** The adapter's own UPDATE team packet leaves the filter unchanged. */
  lemma OwnTeamUpdatePassesFilter(sb: PaperScoreboard, team: PaperTeam, onTeamPacket: (int, string, set<string>) -> set<string>)
    ensures OnPacketSend(sb, UpdateTeam(sb, team).packets[0], onTeamPacket).packet == UpdateTeam(sb, team).packets[0]
  {
  }

  /** With anti-override for teams on, the adapter's own CREATE packet goes
      out with the members the plugin's features answer for it. */
  lemma OwnTeamRegisterIsCorrected(sb: PaperScoreboard, team: PaperTeam, onTeamPacket: (int, string, set<string>) -> set<string>)
    requires sb.antiOverrideTeams
    ensures var e := RegisterTeam(sb, team);
      OnPacketSend(sb, e.packets[0], onTeamPacket).packet
        == e.packets[0].(players := Some(onTeamPacket(CREATE, team.platformTeam.name, e.value.platformTeam.players)))
  {
  }

  /** With anti-override for teams on, the adapter's own REMOVE packet goes
      out with the members the plugin's features answer for an empty list. */
  lemma OwnTeamUnregisterIsCorrected(sb: PaperScoreboard, team: PaperTeam, onTeamPacket: (int, string, set<string>) -> set<string>)
    requires sb.antiOverrideTeams
    ensures OnPacketSend(sb, UnregisterTeam(sb, team)[0], onTeamPacket).packet
      == SetPlayerTeamPacket(team.platformTeam.name, REMOVE, None, Some(onTeamPacket(REMOVE, team.platformTeam.name, {})))
  {
  }

  /** A team whose host team was just created is registered with one CREATE
      packet under the team's name that carries exactly the team's players. */
  lemma CreateThenRegister(sb: PaperScoreboard, team: PaperTeam)
    requires team.platformTeam == CreateTeam(team.name)
    ensures RegisterTeam(sb, team).packets
      == [SetPlayerTeamPacket(team.name, CREATE, Some(SyncedProperties(sb, team)), Some(set p | p in team.players))]
  {
    var e := RegisterTeam(sb, team);
    assert e.value.platformTeam.players == set p | p in team.players;
  }

  /** With anti-override for objectives on, registering an objective tells
      the plugin's features about it twice, in order: the REGISTER packet
      under its name, then the display packet for its slot. The packets
      themselves leave unchanged. */
  lemma OwnObjectiveRegisterNotifies(sb: PaperScoreboard, o: PaperObjective, onTeamPacket: (int, string, set<string>) -> set<string>)
    requires sb.antiOverrideScoreboard
    ensures var ps := RegisterObjective(sb, o).packets;
      Transmit(sb, ps, onTeamPacket)
        == Transmitted(ps, [ObjectiveSeen(REGISTER, o.name), DisplayObjectiveSeen(o.displaySlot.Ordinal(), o.name)])
  {
    var ps := RegisterObjective(sb, o).packets;
    assert ps[1..][1..] == [];
  }

  /** With anti-override for objectives on, unregistering an objective that
      has a handle tells the plugin's features about the UNREGISTER packet
      under the handle's name, and updating tells them about the UPDATE
      packet under the objective's name. */
  lemma OwnObjectiveUnregisterAndUpdateNotify(sb: PaperScoreboard, o: PaperObjective, onTeamPacket: (int, string, set<string>) -> set<string>)
    requires sb.antiOverrideScoreboard
    ensures o.platformObjective.Some? ==>
      Transmit(sb, UnregisterObjective(sb, o).value, onTeamPacket).notifications
        == [ObjectiveSeen(UNREGISTER, o.platformObjective.value.name)]
    ensures o.platformObjective.None? ==>
      Transmit(sb, UpdateObjective(sb, o).packets, onTeamPacket).notifications == [ObjectiveSeen(UPDATE, o.name)]
    ensures o.platformObjective.Some? ==>
      Transmit(sb, UpdateObjective(sb, o).packets, onTeamPacket).notifications
        == [ObjectiveSeen(UPDATE, o.platformObjective.value.name)]
  {
  }
}
