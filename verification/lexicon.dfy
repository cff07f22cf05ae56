/** The regular expressions the engine matches user text and instructions against.
    Regex semantics (word boundaries, case folding, the match list of a global regex)
    are not interpreted: a `Matcher` value supplies what each expression reports on a
    text, and every rule built on top of those reports is modelled exactly. */
module Lexicon {
  import opened Schemas

  /** The eight echo-phrase expressions, each with its callback category. */
  datatype EchoPattern =
    | NotABigDeal     // /not a big deal/gi
    | NoChoice        // /no choice/gi
    | HadTo           // /had to/gi
    | IDeserved       // /i deserved/gi
    | MyFault         // /my fault/gi
    | IFroze          // /i froze/gi
    | CouldntMove     // /couldn't move/gi
    | IJustLet        // /i just.*let/gi

  /** The order in which the echo engine tries its expressions. */
  const EchoPatterns: seq<EchoPattern> :=
    [NotABigDeal, NoChoice, HadTo, IDeserved, MyFault, IFroze, CouldntMove, IJustLet]

  function EchoCategoryOf(p: EchoPattern): EchoCategory {
    match p
    case NotABigDeal => Minimizer
    case NoChoice | HadTo => Inevitability
    case IDeserved | MyFault => Shame
    case IFroze | CouldntMove => Freeze
    case IJustLet => Agency
  }

  /** The nine case-insensitive expressions of the Standards & Practices blacklist. */
  datatype BannedPattern =
    | Polygraph | DeceptionIndicated | TheAudience | ViewersThink
    | Narcissist | Toxic | Delusional | AsAnAi | NotATherapist

  const BannedPatterns: seq<BannedPattern> :=
    [Polygraph, DeceptionIndicated, TheAudience, ViewersThink, Narcissist, Toxic, Delusional, AsAnAi, NotATherapist]

  /** What the engine's expressions report on a given text.
      - `detectorMatches(k, t)`: the match list of pattern kind k's global regex on t
        (empty where JavaScript's `match` returns null);
      - `echoMatches(p, t)`: the match list of echo expression p on t;
      - `crisisMatches(s, t)`: whether safety type s's expression matches t;
      - `bannedMatches(b, t)`: whether blacklist expression b matches t;
      - `lowerCase(t)`: `t.toLowerCase()`. */
  datatype Matcher = Matcher(
    detectorMatches: (PatternKind, string) -> seq<string>,
    echoMatches: (EchoPattern, string) -> seq<string>,
    crisisMatches: (SafetyType, string) -> bool,
    bannedMatches: (BannedPattern, string) -> bool,
    lowerCase: string -> string)
}
