/** The Sponge adapter: the player's host scoreboard is a map from name to
    objective, a map from display slot to objective name and a map from name
    to team. Updates, removals and score changes on a name the host does not
    hold leave the scoreboard as it is. */
module SpongeScoreboard {
  import opened Wrappers
  import opened Chat
  import opened SafeScoreboard

  /** The host's collision rules. */
  datatype SpongeCollisionRule = RuleAlways | RuleNever | RulePushOtherTeams | RulePushOwnTeam {
    function Name(): string {
      match this
      case RuleAlways => "ALWAYS"
      case RuleNever => "NEVER"
      case RulePushOtherTeams => "PUSH_OTHER_TEAMS"
      case RulePushOwnTeam => "PUSH_OWN_TEAM"
    }
  }

  /** The host's name tag visibilities. */
  datatype SpongeVisibility = VisAlways | VisNever | VisHideForOtherTeams | VisHideForOwnTeam {
    function Name(): string {
      match this
      case VisAlways => "ALWAYS"
      case VisNever => "NEVER"
      case VisHideForOtherTeams => "HIDE_FOR_OTHER_TEAMS"
      case VisHideForOwnTeam => "HIDE_FOR_OWN_TEAM"
    }
  }

  /** The host's display slots. */
  datatype SpongeDisplaySlot = SlotList | SlotSidebar | SlotBelowName {
    function Name(): string {
      match this
      case SlotList => "LIST"
      case SlotSidebar => "SIDEBAR"
      case SlotBelowName => "BELOW_NAME"
    }
  }

  /** The host's objective display modes. */
  datatype SpongeDisplayMode = ModeInteger | ModeHearts {
    function Name(): string {
      match this
      case ModeInteger => "INTEGER"
      case ModeHearts => "HEARTS"
    }
  }

  /** Lookup tables indexed by the plugin enum's ordinal. */
  const CollisionRules: seq<SpongeCollisionRule> := [RuleAlways, RuleNever, RulePushOtherTeams, RulePushOwnTeam]

  const Visibilities: seq<SpongeVisibility> := [VisAlways, VisNever, VisHideForOtherTeams, VisHideForOwnTeam]

  const DisplaySlots: seq<SpongeDisplaySlot> := [SlotList, SlotSidebar, SlotBelowName]

  const HealthDisplays: seq<SpongeDisplayMode> := [ModeInteger, ModeHearts]

  function CollisionRuleOf(c: CollisionRule): (r: SpongeCollisionRule)
    ensures r.Name() == c.Name()
  {
    CollisionRules[c.Ordinal()]
  }

  function VisibilityOf(v: NameVisibility): (r: SpongeVisibility)
    ensures r.Name() == v.Name()
  {
    Visibilities[v.Ordinal()]
  }

  function DisplaySlotOf(s: DisplaySlot): (r: SpongeDisplaySlot)
    ensures r.Name() == s.Name()
  {
    DisplaySlots[s.Ordinal()]
  }

  function DisplayModeOf(h: HealthDisplay): (r: SpongeDisplayMode)
    ensures r.Name() == h.Name()
  {
    HealthDisplays[h.Ordinal()]
  }

  /** A named text colour of the host; `White` is the fallback. */
  datatype NamedTextColor = NamedTextColor(name: string)

  const White: NamedTextColor := NamedTextColor("white")

  /** The colour the host's name index gives a legacy colour's name, or
      white when the index has no such name. */
  function ColorOf(names: map<string, NamedTextColor>, c: LegacyColor): (r: NamedTextColor)
    ensures c.Name() in names ==> r == names[c.Name()]
    ensures c.Name() !in names ==> r == White
  {
    if c.Name() in names then names[c.Name()] else White
  }

  datatype HostObjective = HostObjective(
    name: string,
    displayName: RenderedText,
    displayMode: SpongeDisplayMode,
    scores: map<string, int>)

  datatype HostTeam = HostTeam(
    name: string,
    displayName: RenderedText,
    prefix: RenderedText,
    suffix: RenderedText,
    color: NamedTextColor,
    allowFriendlyFire: bool,
    canSeeFriendlyInvisibles: bool,
    collisionRule: SpongeCollisionRule,
    nameTagVisibility: SpongeVisibility,
    members: set<RenderedText>)

  datatype HostScoreboard = HostScoreboard(
    objectives: map<string, HostObjective>,
    slots: map<SpongeDisplaySlot, string>,
    teams: map<string, HostTeam>)

  /** One player's adapter: the version text is rendered for, and the host's
      index from colour name to named colour. */
  datatype SpongeScoreboard = SpongeScoreboard(
    version: ProtocolVersion,
    colorNames: map<string, NamedTextColor>)

  /** Every entry is filed under its own name and every display slot shows
      an objective the scoreboard holds. */
  ghost predicate Consistent(board: HostScoreboard) {
    && (forall n :: n in board.objectives ==> board.objectives[n].name == n)
    && (forall s :: s in board.slots ==> board.slots[s] in board.objectives)
    && (forall n :: n in board.teams ==> board.teams[n].name == n)
  }

  /** Adds an objective named after the objective, whose display text is the
      rendered name rather than the title, and shows it in the slot at the
      objective's slot ordinal. The host refuses a second objective of the
      same name. */
  function RegisterObjective<H>(sponge: SpongeScoreboard, board: HostScoreboard, o: Objective<H>): (r: Result<HostScoreboard, ScoreboardError>)
    ensures o.name in board.objectives <==> r == Failure(DuplicateObjective)
    ensures r.Success? ==>
      && o.name in r.value.objectives
      && r.value.objectives == board.objectives[o.name := r.value.objectives[o.name]]
      && r.value.objectives[o.name].name == o.name
      && r.value.objectives[o.name].displayName == Optimized(o.name, sponge.version)
      && r.value.objectives[o.name].displayMode.Name() == o.healthDisplay.Name()
      && r.value.objectives[o.name].scores == map[]
      && r.value.slots == board.slots[DisplaySlotOf(o.displaySlot) := o.name]
      && r.value.teams == board.teams
    ensures r.Success? && Consistent(board) ==> Consistent(r.value)
  {
    if o.name in board.objectives then Failure(DuplicateObjective)
    else
      var obj := HostObjective(o.name, Optimized(o.name, sponge.version), DisplayModeOf(o.healthDisplay), map[]);
      Success(board.(
        objectives := board.objectives[o.name := obj],
        slots := board.slots[DisplaySlotOf(o.displaySlot) := o.name]))
  }

  /** Removes the objective of that name, and with it every slot showing it;
      nothing happens when there is none. */
  function UnregisterObjective<H>(sponge: SpongeScoreboard, board: HostScoreboard, o: Objective<H>): (r: HostScoreboard)
    ensures o.name !in board.objectives ==> r == board
    ensures r.objectives == board.objectives - {o.name}
    ensures o.name in board.objectives ==>
      && (forall s :: s in r.slots <==> s in board.slots && board.slots[s] != o.name)
      && (forall s :: s in r.slots ==> r.slots[s] == board.slots[s])
    ensures r.teams == board.teams
    ensures Consistent(board) ==> Consistent(r)
  {
    if o.name !in board.objectives then board
    else
      board.(
        objectives := board.objectives - {o.name},
        slots := map s | s in board.slots && board.slots[s] != o.name :: board.slots[s])
  }

  /** Sets display text and display mode of the objective of that name and
      changes nothing else; nothing happens when there is none. */
  function UpdateObjective<H>(sponge: SpongeScoreboard, board: HostScoreboard, o: Objective<H>): (r: HostScoreboard)
    ensures o.name !in board.objectives ==> r == board
    ensures o.name in board.objectives ==>
      && r.objectives.Keys == board.objectives.Keys
      && r.objectives[o.name].displayName == Optimized(o.name, sponge.version)
      && r.objectives[o.name].displayMode.Name() == o.healthDisplay.Name()
      && r.objectives[o.name].name == board.objectives[o.name].name
      && r.objectives[o.name].scores == board.objectives[o.name].scores
      && (forall n :: n in r.objectives && n != o.name ==> r.objectives[n] == board.objectives[n])
      && r.slots == board.slots && r.teams == board.teams
    ensures Consistent(board) ==> Consistent(r)
  {
    if o.name !in board.objectives then board
    else
      var obj := board.objectives[o.name];
      var updated := obj.(displayName := Optimized(o.name, sponge.version), displayMode := DisplayModeOf(o.healthDisplay));
      board.(objectives := board.objectives[o.name := updated])
  }

  /** Sets the holder's score under the named objective; nothing happens when
      the objective is absent. */
  function SetScore(sponge: SpongeScoreboard, board: HostScoreboard, s: Score): (r: HostScoreboard)
    ensures s.objective !in board.objectives ==> r == board
    ensures s.objective in board.objectives ==>
      && r.objectives.Keys == board.objectives.Keys
      && r.objectives[s.objective] == board.objectives[s.objective].(scores := board.objectives[s.objective].scores[s.holder := s.value])
      && (forall n :: n in r.objectives && n != s.objective ==> r.objectives[n] == board.objectives[n])
      && r.slots == board.slots && r.teams == board.teams
    ensures Consistent(board) ==> Consistent(r)
  {
    if s.objective !in board.objectives then board
    else
      var obj := board.objectives[s.objective];
      board.(objectives := board.objectives[s.objective := obj.(scores := obj.scores[s.holder := s.value])])
  }

  /** Removes the holder's score under the named objective; nothing happens
      when the objective is absent. */
  function RemoveScore(sponge: SpongeScoreboard, board: HostScoreboard, s: Score): (r: HostScoreboard)
    ensures s.objective !in board.objectives ==> r == board
    ensures s.objective in board.objectives ==>
      && r.objectives.Keys == board.objectives.Keys
      && s.holder !in r.objectives[s.objective].scores
      && r.objectives[s.objective].scores == board.objectives[s.objective].scores - {s.holder}
      && r.objectives[s.objective].(scores := board.objectives[s.objective].scores) == board.objectives[s.objective]
      && (forall n :: n in r.objectives && n != s.objective ==> r.objectives[n] == board.objectives[n])
      && r.slots == board.slots && r.teams == board.teams
    ensures Consistent(board) ==> Consistent(r)
  {
    if s.objective !in board.objectives then board
    else
      var obj := board.objectives[s.objective];
      board.(objectives := board.objectives[s.objective := obj.(scores := obj.scores - {s.holder})])
  }

  /** Adds the members one at a time, each rendered for the version. */
  function AddMembers(t: HostTeam, players: seq<string>, version: ProtocolVersion): (r: HostTeam)
    ensures r.(members := t.members) == t
    ensures forall m :: m in r.members <==> m in t.members || exists i :: 0 <= i < |players| && m == Optimized(players[i], version)
    decreases |players|
  {
    if |players| == 0 then t
    else
      var r := AddMembers(t.(members := t.members + {Optimized(players[0], version)}), players[1..], version);
      assert forall i :: 0 < i < |players| ==> players[i] == players[1..][i - 1];
      r
  }

  /** The host team built from the plugin's team, before any member is added. */
  function BuildTeam<H>(sponge: SpongeScoreboard, team: Team<H>): (t: HostTeam)
    ensures t.name == team.name
    ensures t.displayName == Optimized(team.name, sponge.version)
    ensures t.prefix == Converted(team.prefix, sponge.version)
    ensures t.suffix == Converted(team.suffix, sponge.version)
    ensures t.color == ColorOf(sponge.colorNames, team.color)
    ensures t.allowFriendlyFire <==> AllowFriendlyFire(team.options)
    ensures t.canSeeFriendlyInvisibles <==> SeeFriendlyInvisibles(team.options)
    ensures t.collisionRule.Name() == team.collision.Name()
    ensures t.nameTagVisibility.Name() == team.visibility.Name()
    ensures t.members == {}
  {
    HostTeam(
      team.name,
      Optimized(team.name, sponge.version),
      Converted(team.prefix, sponge.version),
      Converted(team.suffix, sponge.version),
      ColorOf(sponge.colorNames, team.color),
      AllowFriendlyFire(team.options),
      SeeFriendlyInvisibles(team.options),
      CollisionRuleOf(team.collision),
      VisibilityOf(team.visibility),
      {})
  }

  /** Builds the host team, adds every member, and only then registers the
      team, so it becomes visible with its full membership. The host refuses
      a second team of the same name. */
  function RegisterTeam<H>(sponge: SpongeScoreboard, board: HostScoreboard, team: Team<H>): (r: Result<HostScoreboard, ScoreboardError>)
    ensures team.name in board.teams <==> r == Failure(DuplicateTeam)
    ensures r.Success? ==>
      && team.name in r.value.teams
      && r.value.teams == board.teams[team.name := r.value.teams[team.name]]
      && r.value.teams[team.name].(members := {}) == BuildTeam(sponge, team)
      && (forall m :: m in r.value.teams[team.name].members <==>
            exists i :: 0 <= i < |team.players| && m == Optimized(team.players[i], sponge.version))
      && r.value.objectives == board.objectives && r.value.slots == board.slots
    ensures r.Success? && Consistent(board) ==> Consistent(r.value)
  {
    if team.name in board.teams then Failure(DuplicateTeam)
    else
      var built := AddMembers(BuildTeam(sponge, team), team.players, sponge.version);
      Success(board.(teams := board.teams[team.name := built]))
  }

  /** Removes the team of that name; nothing happens when there is none. */
  function UnregisterTeam<H>(sponge: SpongeScoreboard, board: HostScoreboard, team: Team<H>): (r: HostScoreboard)
    ensures team.name !in board.teams ==> r == board
    ensures r.teams == board.teams - {team.name}
    ensures r.objectives == board.objectives && r.slots == board.slots
    ensures Consistent(board) ==> Consistent(r)
  {
    if team.name !in board.teams then board
    else board.(teams := board.teams - {team.name})
  }

  /** Sets display name, prefix, suffix, colour, both option bits, collision
      rule and visibility of the team of that name, keeping its members;
      nothing happens when there is none. */
  function UpdateTeam<H>(sponge: SpongeScoreboard, board: HostScoreboard, team: Team<H>): (r: HostScoreboard)
    ensures team.name !in board.teams ==> r == board
    ensures team.name in board.teams ==>
      && r.teams.Keys == board.teams.Keys
      && r.teams[team.name].members == board.teams[team.name].members
      && r.teams[team.name].name == board.teams[team.name].name
      && r.teams[team.name].(name := team.name, members := {}) == BuildTeam(sponge, team)
      && (forall n :: n in r.teams && n != team.name ==> r.teams[n] == board.teams[n])
      && r.objectives == board.objectives && r.slots == board.slots
    ensures Consistent(board) ==> Consistent(r)
  {
    if team.name !in board.teams then board
    else
      var t := board.teams[team.name];
      var updated := t.(
        displayName := Optimized(team.name, sponge.version),
        prefix := Converted(team.prefix, sponge.version),
        suffix := Converted(team.suffix, sponge.version),
        color := ColorOf(sponge.colorNames, team.color),
        allowFriendlyFire := AllowFriendlyFire(team.options),
        canSeeFriendlyInvisibles := SeeFriendlyInvisibles(team.options),
        collisionRule := CollisionRuleOf(team.collision),
        nameTagVisibility := VisibilityOf(team.visibility));
      board.(teams := board.teams[team.name := updated])
  }

  /** Registering an objective name twice fails; registering it again after
      unregistering it succeeds. */
  lemma RegisterUnregisterRegister<H>(sponge: SpongeScoreboard, board: HostScoreboard, o: Objective<H>)
    requires o.name !in board.objectives
    ensures RegisterObjective(sponge, board, o).Success?
    ensures RegisterObjective(sponge, RegisterObjective(sponge, board, o).value, o) == Failure(DuplicateObjective)
    ensures RegisterObjective(sponge, UnregisterObjective(sponge, RegisterObjective(sponge, board, o).value, o), o).Success?
  {
  }

  /** Removing a score right after setting it is the same as only removing
      it, and setting it twice is setting it once. */
  lemma ScoreOperationsOverwrite(sponge: SpongeScoreboard, board: HostScoreboard, s: Score)
    ensures RemoveScore(sponge, SetScore(sponge, board, s), s) == RemoveScore(sponge, board, s)
    ensures SetScore(sponge, SetScore(sponge, board, s), s) == SetScore(sponge, board, s)
  {
    if s.objective in board.objectives {
      var obj := board.objectives[s.objective];
      var set1 := obj.(scores := obj.scores[s.holder := s.value]);
      var once := board.(objectives := board.objectives[s.objective := set1]);
      assert set1.scores[s.holder := s.value] == set1.scores;
      assert SetScore(sponge, once, s) == once;
      assert set1.scores - {s.holder} == obj.scores - {s.holder};
      assert once.objectives[s.objective := set1.(scores := set1.scores - {s.holder})]
        == board.objectives[s.objective := obj.(scores := obj.scores - {s.holder})];
    }
  }

  /** Updating an objective twice is updating it once. */
  lemma UpdateObjectiveIdempotent<H>(sponge: SpongeScoreboard, board: HostScoreboard, o: Objective<H>)
    ensures UpdateObjective(sponge, UpdateObjective(sponge, board, o), o) == UpdateObjective(sponge, board, o)
  {
  }

  /** Updating a team changes nothing a later update would not overwrite:
      updating twice is updating once. */
  lemma UpdateTeamIdempotent<H>(sponge: SpongeScoreboard, board: HostScoreboard, team: Team<H>)
    ensures UpdateTeam(sponge, UpdateTeam(sponge, board, team), team) == UpdateTeam(sponge, board, team)
  {
  }
}
