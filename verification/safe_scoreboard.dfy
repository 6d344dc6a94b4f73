/** The plugin's own scoreboard entities, which every platform adapter
    receives: objectives, scores and teams, with the enumerations they use and
    the packed team options. */
module SafeScoreboard {
  import opened Wrappers
  import opened Bits
  import opened Chat

  /** The player's client version, which text rendering depends on. */
  datatype ProtocolVersion = ProtocolVersion(networkId: int)

  /** A host text value produced by the version-aware renderer. Rendering
      itself is not modelled: the value records only what was rendered and for
      which version, so two renderings are equal exactly when their inputs are. */
  datatype RenderedText =
    | Converted(component: TabComponent, version: ProtocolVersion)
    | Optimized(text: string, version: ProtocolVersion)

  datatype HealthDisplay = Integer | Hearts {
    function Ordinal(): nat {
      match this
      case Integer => 0
      case Hearts => 1
    }
    function Name(): string {
      match this
      case Integer => "INTEGER"
      case Hearts => "HEARTS"
    }
  }

  datatype DisplaySlot = List | Sidebar | BelowName {
    function Ordinal(): nat {
      match this
      case List => 0
      case Sidebar => 1
      case BelowName => 2
    }
    function Name(): string {
      match this
      case List => "LIST"
      case Sidebar => "SIDEBAR"
      case BelowName => "BELOW_NAME"
    }
  }

  datatype CollisionRule = Always | Never | PushOtherTeams | PushOwnTeam {
    function Ordinal(): nat {
      match this
      case Always => 0
      case Never => 1
      case PushOtherTeams => 2
      case PushOwnTeam => 3
    }
    function Name(): string {
      match this
      case Always => "ALWAYS"
      case Never => "NEVER"
      case PushOtherTeams => "PUSH_OTHER_TEAMS"
      case PushOwnTeam => "PUSH_OWN_TEAM"
    }
  }

  datatype NameVisibility = ShowAlways | ShowNever | HideForOtherTeams | HideForOwnTeam {
    function Ordinal(): nat {
      match this
      case ShowAlways => 0
      case ShowNever => 1
      case HideForOtherTeams => 2
      case HideForOwnTeam => 3
    }
    function Name(): string {
      match this
      case ShowAlways => "ALWAYS"
      case ShowNever => "NEVER"
      case HideForOtherTeams => "HIDE_FOR_OTHER_TEAMS"
      case HideForOwnTeam => "HIDE_FOR_OWN_TEAM"
    }
  }

  /** The legacy colour and format codes, in declaration order. */
  datatype LegacyColor =
    | Black | DarkBlue | DarkGreen | DarkAqua | DarkRed | DarkPurple | Gold | Gray
    | DarkGray | Blue | Green | Aqua | Red | LightPurple | Yellow | White
    | Obfuscated | Bold | Strikethrough | Underline | Italic | Reset
  {
    function Ordinal(): nat {
      match this
      case Black => 0
      case DarkBlue => 1
      case DarkGreen => 2
      case DarkAqua => 3
      case DarkRed => 4
      case DarkPurple => 5
      case Gold => 6
      case Gray => 7
      case DarkGray => 8
      case Blue => 9
      case Green => 10
      case Aqua => 11
      case Red => 12
      case LightPurple => 13
      case Yellow => 14
      case White => 15
      case Obfuscated => 16
      case Bold => 17
      case Strikethrough => 18
      case Underline => 19
      case Italic => 20
      case Reset => 21
    }
    function Name(): string {
      match this
      case Black => "BLACK"
      case DarkBlue => "DARK_BLUE"
      case DarkGreen => "DARK_GREEN"
      case DarkAqua => "DARK_AQUA"
      case DarkRed => "DARK_RED"
      case DarkPurple => "DARK_PURPLE"
      case Gold => "GOLD"
      case Gray => "GRAY"
      case DarkGray => "DARK_GRAY"
      case Blue => "BLUE"
      case Green => "GREEN"
      case Aqua => "AQUA"
      case Red => "RED"
      case LightPurple => "LIGHT_PURPLE"
      case Yellow => "YELLOW"
      case White => "WHITE"
      case Obfuscated => "OBFUSCATED"
      case Bold => "BOLD"
      case Strikethrough => "STRIKETHROUGH"
      case Underline => "UNDERLINE"
      case Italic => "ITALIC"
      case Reset => "RESET"
    }
  }

  /** A number format override; its content is opaque to the adapters. */
  datatype NumberFormat = NumberFormat(text: TabComponent)

  /** An objective; `H` is the adapter's platform handle, created lazily. */
  datatype Objective<H> = Objective(
    name: string,
    title: TabComponent,
    healthDisplay: HealthDisplay,
    displaySlot: DisplaySlot,
    numberFormat: Option<NumberFormat>,
    platformObjective: Option<H>)

  /** A score published for a holder under a named objective. */
  datatype Score = Score(
    objective: string,
    holder: string,
    value: int,
    displayName: Option<TabComponent>,
    numberFormat: Option<NumberFormat>)

  /** A team; `H` is the adapter's platform team, created with the team. */
  datatype Team<H> = Team(
    name: string,
    prefix: TabComponent,
    suffix: TabComponent,
    color: LegacyColor,
    options: int,
    collision: CollisionRule,
    visibility: NameVisibility,
    players: seq<string>,
    platformTeam: H)

  /** Objective packet actions. */
  const REGISTER: int := 0
  const UNREGISTER: int := 1
  const UPDATE: int := 2

  /** Team packet actions. */
  const CREATE: int := 0
  const REMOVE: int := 1
  const TEAM_UPDATE: int := 2
  const ADD_PLAYER: int := 3
  const REMOVE_PLAYER: int := 4

  datatype ScoreboardError = MissingPlatformObjective | DuplicateObjective | DuplicateTeam

  /** Bit 0 of a team's options. */
  predicate AllowFriendlyFire(options: int) {
    HasFlag(options, 1)
  }

  /** Bit 1 of a team's options. */
  predicate SeeFriendlyInvisibles(options: int) {
    HasFlag(options, 2)
  }

  /** Packs the two team options into an options field. */
  function PackOptions(friendlyFire: bool, seeInvisibles: bool): int {
    (if friendlyFire then 1 else 0) + (if seeInvisibles then 2 else 0)
  }

  /** Decoding inverts packing, and packing the decoded bits keeps exactly
      the two low bits of any options field, whatever its sign. */
  lemma OptionsRoundTrip(friendlyFire: bool, seeInvisibles: bool, options: int)
    ensures AllowFriendlyFire(PackOptions(friendlyFire, seeInvisibles)) == friendlyFire
    ensures SeeFriendlyInvisibles(PackOptions(friendlyFire, seeInvisibles)) == seeInvisibles
    ensures PackOptions(AllowFriendlyFire(options), SeeFriendlyInvisibles(options)) == options % 4
  {
  }
}
