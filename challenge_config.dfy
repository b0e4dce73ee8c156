/** The spell-challenge table (src/shared/types/challenge.ts): one challenge
    per enemy, with the spell to trace, its difficulty, its time limit in
    milliseconds, the tolerance around the circle in pixels and the number of
    checkpoints; and the constants of the reward and of the random draws. */
module ChallengeConfig {
  import opened Prelude

  datatype ChallengeType = Dementor | Spider | Fire | DevilSnare | Serpent | IceTrap

  datatype Difficulty = Easy | Medium | Hard

  datatype Challenge = Challenge(
    kind: ChallengeType,
    spell: string,
    spellLatin: Option<string>,
    difficulty: Difficulty,
    description: string,
    enemyName: string,
    color: string,
    glowColor: string,
    duration: int,
    tolerance: int,
    controlPoints: int)

  /** What a finished challenge reports. */
  datatype ChallengeResult = ChallengeResult(
    success: bool,
    xpBonus: int,
    hintRevealed: bool,
    hint: Option<string>,
    completionTime: Option<int>)

  const XpBonus: int := 30
  /** The probability of revealing a hint, and of a challenge appearing. */
  const HintRevealChance: real := 0.2
  const ChallengeSpawnRate: real := 0.3

  /** `CHALLENGE_CONFIG[t]`. */
  function Config(t: ChallengeType): (c: Challenge)
    // every entry is filed under its own type
    ensures c.kind == t
    // the dementor has six checkpoints, every other enemy five
    ensures c.controlPoints == if t == Dementor then 6 else 5
    // a positive whole number of 100 ms ticks
    ensures c.duration in {10000, 12000, 15000} && c.duration > 0 && c.duration % 100 == 0
    // the time limit and the tolerance follow from the difficulty alone
    ensures c.duration == DurationOf(c.difficulty) && c.tolerance == ToleranceOf(c.difficulty)
    ensures c.spellLatin == Some(c.spell)
  {
    match t
    case Dementor =>
      Challenge(Dementor, "Expecto Patronum", Some("Expecto Patronum"), Hard,
                "Un Détraqueur surgit des ténèbres !", "Détraqueur",
                "#C0D6E4", "rgba(192, 214, 228, 0.8)", 10000, 35, 6)
    case Spider =>
      Challenge(Spider, "Arania Exumai", Some("Arania Exumai"), Medium,
                "Une araignée géante vous attaque !", "Acromentule",
                "#E74C3C", "rgba(231, 76, 60, 0.8)", 12000, 40, 5)
    case Fire =>
      Challenge(Fire, "Aguamenti", Some("Aguamenti"), Easy,
                "Des flammes magiques se répandent !", "Incendie Maudit",
                "#3498DB", "rgba(52, 152, 219, 0.8)", 15000, 45, 5)
    case DevilSnare =>
      Challenge(DevilSnare, "Lumos Solem", Some("Lumos Solem"), Medium,
                "Le Filet du Diable vous enserre !", "Filet du Diable",
                "#F39C12", "rgba(243, 156, 18, 0.8)", 12000, 40, 5)
    case Serpent =>
      Challenge(Serpent, "Vipera Evanesca", Some("Vipera Evanesca"), Easy,
                "Un serpent venimeux se dresse !", "Serpent Maudit",
                "#2ECC71", "rgba(46, 204, 113, 0.8)", 15000, 45, 5)
    case IceTrap =>
      Challenge(IceTrap, "Incendio", Some("Incendio"), Medium,
                "Un piège de glace vous emprisonne !", "Piège Glacé",
                "#E67E22", "rgba(230, 126, 34, 0.8)", 12000, 40, 5)
  }

  /** The time limit and tolerance the table gives each difficulty. */
  function DurationOf(d: Difficulty): int {
    match d
    case Hard => 10000
    case Medium => 12000
    case Easy => 15000
  }

  function ToleranceOf(d: Difficulty): int {
    match d
    case Hard => 35
    case Medium => 40
    case Easy => 45
  }

  /** Hard before medium before easy. */
  function Rank(d: Difficulty): nat {
    match d
    case Hard => 0
    case Medium => 1
    case Easy => 2
  }

  /** A harder challenge leaves strictly less time and strictly less room
      around the circle. */
  lemma HarderIsStricter(a: ChallengeType, b: ChallengeType)
    requires Rank(Config(a).difficulty) < Rank(Config(b).difficulty)
    ensures Config(a).duration < Config(b).duration
    ensures Config(a).tolerance < Config(b).tolerance
  {
  }

  /** The enemies that share a difficulty share its timing and tolerance. */
  lemma SameDifficultySameRules(a: ChallengeType, b: ChallengeType)
    requires Config(a).difficulty == Config(b).difficulty
    ensures Config(a).duration == Config(b).duration && Config(a).tolerance == Config(b).tolerance
  {
  }

  /** Every tolerance is below the radius 120 of the circle to trace. */
  lemma ToleranceBelowRadius(t: ChallengeType)
    ensures 0 < Config(t).tolerance < 120
  {
  }
}
