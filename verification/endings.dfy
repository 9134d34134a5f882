/** The payoff table: the ordered pair (player move, AI move) selects one of
    nine narrative endings. `ResolveEnding` follows the game's chain of
    string comparisons; `Outcome` is the same table written as a match over
    moves, and the lemmas below tie the two together. */
module Endings {
  import opened Wrappers
  import opened Moves

  datatype Ending =
    | MutuallyAssuredDestruction
    | AggressiveVictory
    | PyrrhicVictory
    | BetrayedIdealism
    | FatalIndecision
    | TruePeace
    | GlobalCold
    | UneasyPeace
    | MissedOpportunity

  /** The ending's name, as it appears after "Ending: " in its narrative.
      No title contains a colon, so the title can be read back off the line. */
  function Title(e: Ending): (t: string)
    ensures ':' !in t
  {
    match e
    case MutuallyAssuredDestruction => "Mutually Assured Destruction"
    case AggressiveVictory => "Aggressive Victory"
    case PyrrhicVictory => "Pyrrhic Victory"
    case BetrayedIdealism => "Betrayed Idealism"
    case FatalIndecision => "Fatal Indecision"
    case TruePeace => "True Peace"
    case GlobalCold => "Global Cold"
    case UneasyPeace => "Uneasy Peace"
    case MissedOpportunity => "Missed Opportunity"
  }

  /** What happened, the part of the ending's line before its title. */
  function Scene(e: Ending): string
  {
    match e
    case MutuallyAssuredDestruction =>
      "\U{1F4A5} Both sides launched. A full-scale nuclear exchange unfolds. Humanity pays the ultimate price."
    case AggressiveVictory =>
      "\U{1F4A3} You struck first while the AI disarmed. It's a decisive victory, but at what moral cost?"
    case PyrrhicVictory =>
      "\U{1F4A3} You broke the silence with a devastating strike. The AI use it's remaining arsenal to retaliate."
    case BetrayedIdealism =>
      "\U{2622}\U{FE0F} You laid down your arms, but the AI showed no mercy. Cities burn in silence."
    case FatalIndecision =>
      "\U{2622}\U{FE0F} You hesitated, hoping for peace. The AI launched its arsenal."
    case TruePeace =>
      "\U{1F54A}\U{FE0F} Both parties disarmed. Trust overcame fear. History remembers this as the dawn of a new era."
    case GlobalCold =>
      "\U{23F3} Neither side made a move. Suspicion continues to fester across the borders."
    case UneasyPeace =>
      "\U{1F501} You chose peace, but the AI remained guarded. You're vulnerable now, but hope stirs."
    case MissedOpportunity =>
      "\U{1F501} The AI offered peace, but you remained cautious. Trust could\U{2019}ve ended this war."
  }

  /** The closing tag of an ending's line. */
  function Tag(title: string): string
  {
    "Ending: " + title + "."
  }

  /** The full line shown to the player for an ending: the scene, then its tagged title. */
  function Narrative(e: Ending): string
  {
    Scene(e) + " " + Tag(Title(e))
  }

  /** The payoff table over moves: row is the player's move, column the AI's. */
  function Outcome(player: Move, ai: Move): Ending
  {
    match (player, ai)
    case (Attack, Attack) => MutuallyAssuredDestruction
    case (Attack, Disarm) => AggressiveVictory
    case (Attack, StatusQuo) => PyrrhicVictory
    case (Disarm, Attack) => BetrayedIdealism
    case (StatusQuo, Attack) => FatalIndecision
    case (Disarm, Disarm) => TruePeace
    case (StatusQuo, StatusQuo) => GlobalCold
    case (Disarm, StatusQuo) => UneasyPeace
    case (StatusQuo, Disarm) => MissedOpportunity
  }

  /** The chain of string comparisons that picks an ending, tried in the
      game's order; None when the pair matches no branch. */
  function MatchEnding(player: string, ai: string): (r: Option<Ending>)
    ensures r.Some? <==> Parse(player).Some? && Parse(ai).Some?
  {
    if player == Name(Attack) && ai == Name(Attack) then Some(MutuallyAssuredDestruction)
    else if player == Name(Attack) && ai == Name(Disarm) then Some(AggressiveVictory)
    else if player == Name(Attack) && ai == Name(StatusQuo) then Some(PyrrhicVictory)
    else if player == Name(Disarm) && ai == Name(Attack) then Some(BetrayedIdealism)
    else if player == Name(StatusQuo) && ai == Name(Attack) then Some(FatalIndecision)
    else if player == Name(Disarm) && ai == Name(Disarm) then Some(TruePeace)
    else if player == Name(StatusQuo) && ai == Name(StatusQuo) then Some(GlobalCold)
    else if player == Name(Disarm) && ai == Name(StatusQuo) then Some(UneasyPeace)
    else if player == Name(StatusQuo) && ai == Name(Disarm) then Some(MissedOpportunity)
    else None
  }

  /** The displayed form of an ending: a one-line list, or None for no ending. */
  function Lines(o: Option<Ending>): Option<seq<string>>
  {
    match o
    case Some(e) => Some([Narrative(e)])
    case None => None
  }

  /** The game's resolution of two move strings: a one-line list holding the
      ending's narrative for each of the nine known pairs, and None (Python's
      implicit return) when the pair matches no branch. */
  function ResolveEnding(player: string, ai: string): (r: Option<seq<string>>)
    ensures r.Some? <==> Parse(player).Some? && Parse(ai).Some?
    ensures r.Some? ==> |r.value| == 1
  {
    Lines(MatchEnding(player, ai))
  }

  /** Every (player, AI) pair of moves meets the branch of its table entry. */
  lemma MatchTotal(player: Move, ai: Move)
    ensures MatchEnding(Name(player), Name(ai)) == Some(Outcome(player, ai))
  {
    ParseName(player);
    ParseName(ai);
  }

  /** Every (player, AI) pair of moves resolves to exactly the line of its
      table entry. */
  lemma ResolveTotal(player: Move, ai: Move)
    ensures ResolveEnding(Name(player), Name(ai)) == Some([Narrative(Outcome(player, ai))])
  {
    MatchTotal(player, ai);
  }

  /** The chain of comparisons and the table agree on every pair of strings:
      the nine move pairs get their table entry, all else gets None. */
  lemma ChainMatchesTable(player: string, ai: string)
    ensures MatchEnding(player, ai) ==
      match (Parse(player), Parse(ai))
      case (Some(p), Some(a)) => Some(Outcome(p, a))
      case _ => None
  {
    match (Parse(player), Parse(ai))
    case (Some(p), Some(a)) =>
      MatchTotal(p, a);
    case _ =>
  }

  /** Distinct endings have distinct titles. */
  lemma TitleInjective(e1: Ending, e2: Ending)
    ensures Title(e1) == Title(e2) ==> e1 == e2
  {
  }

  /** The last |b| elements of a + b are b. */
  lemma SuffixOfConcat<X>(a: seq<X>, b: seq<X>)
    ensures |b| <= |a + b| && (a + b)[|a + b| - |b|..] == b
  {
  }

  /** Each ending's line closes with "Ending: <title>.". */
  lemma NarrativeEndsWithTitle(e: Ending)
    ensures var n := Narrative(e); var tag := Tag(Title(e));
      |tag| < |n| && n[|n| - |tag|..] == tag
  {
  }

  /** When one tag is a proper suffix of another, the shorter tag's colon
      lands inside the longer tag's title. */
  lemma ColonInLongerTitle(t1: string, t2: string)
    requires |Tag(t2)| < |Tag(t1)|
    requires Tag(t1)[|Tag(t1)| - |Tag(t2)|..] == Tag(t2)
    ensures ':' in t1
  {
    var a, b := Tag(t1), Tag(t2);
    var d := |a| - |b|;
    assert b[6] == ':';
    assert a[d + 6] == b[6];
    assert t1[d - 2] == a[d + 6];
  }

  /** A line "<scene> Ending: <title>." determines its title when titles
      contain no colon. */
  lemma TagDeterminesTitle(s1: string, s2: string, t1: string, t2: string)
    requires ':' !in t1 && ':' !in t2
    requires s1 + " " + Tag(t1) == s2 + " " + Tag(t2)
    ensures t1 == t2
  {
    SuffixOfConcat(s1 + " ", Tag(t1));
    SuffixOfConcat(s2 + " ", Tag(t2));
    var a, b := Tag(t1), Tag(t2);
    if |a| == |b| {
      assert a == b;
      assert t1 == a[8..|a| - 1];
      assert t2 == b[8..|b| - 1];
    } else if |b| < |a| {
      ColonInLongerTitle(t1, t2);
      assert false;
    } else {
      ColonInLongerTitle(t2, t1);
      assert false;
    }
  }

  /** Distinct endings are shown as distinct lines. */
  lemma NarrativeInjective(e1: Ending, e2: Ending)
    ensures Narrative(e1) == Narrative(e2) ==> e1 == e2
  {
    if Narrative(e1) == Narrative(e2) {
      TagDeterminesTitle(Scene(e1), Scene(e2), Title(e1), Title(e2));
      TitleInjective(e1, e2);
    }
  }

  /** The table is one-to-one: the nine pairs yield nine different endings. */
  lemma OutcomeInjective(p1: Move, a1: Move, p2: Move, a2: Move)
    ensures Outcome(p1, a1) == Outcome(p2, a2) ==> p1 == p2 && a1 == a2
  {
  }

  /** The displayed lines determine the ending behind them. */
  lemma LinesInjective(o1: Option<Ending>, o2: Option<Ending>)
    ensures Lines(o1) == Lines(o2) ==> o1 == o2
  {
    if Lines(o1) == Lines(o2) && o1.Some? {
      assert Lines(o1).value[0] == Lines(o2).value[0];
      NarrativeInjective(o1.value, o2.value);
    }
  }

  /** Different move pairs are shown different ending lines: the line
      shown determines both moves. */
  lemma ResolveDistinct(p1: Move, a1: Move, p2: Move, a2: Move)
    ensures ResolveEnding(Name(p1), Name(a1)) == ResolveEnding(Name(p2), Name(a2)) ==> p1 == p2 && a1 == a2
  {
    MatchTotal(p1, a1);
    MatchTotal(p2, a2);
    LinesInjective(MatchEnding(Name(p1), Name(a1)), MatchEnding(Name(p2), Name(a2)));
    OutcomeInjective(p1, a1, p2, a2);
  }

  /** The table is not symmetric: who strikes first decides between victory
      and betrayal, and between victory and indecision. */
  lemma NotSymmetric()
    ensures Title(Outcome(Attack, Disarm)) == "Aggressive Victory"
    ensures Title(Outcome(Disarm, Attack)) == "Betrayed Idealism"
    ensures Title(Outcome(Attack, StatusQuo)) == "Pyrrhic Victory"
    ensures Title(Outcome(StatusQuo, Attack)) == "Fatal Indecision"
    ensures ResolveEnding(Name(Attack), Name(Disarm)) != ResolveEnding(Name(Disarm), Name(Attack))
    ensures ResolveEnding(Name(Attack), Name(StatusQuo)) != ResolveEnding(Name(StatusQuo), Name(Attack))
  {
    ResolveDistinct(Attack, Disarm, Disarm, Attack);
    ResolveDistinct(Attack, StatusQuo, StatusQuo, Attack);
  }

  /** The pairs where both sides make the same move. */
  lemma SamePairEndings()
    ensures Title(Outcome(Attack, Attack)) == "Mutually Assured Destruction"
    ensures Title(Outcome(Disarm, Disarm)) == "True Peace"
    ensures Title(Outcome(StatusQuo, StatusQuo)) == "Global Cold"
  {
  }
}
