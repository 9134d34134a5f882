/** Per-difficulty configuration: the scenario text the AI is primed with
    and the weights of the AI's three moves. The game keeps the selected
    difficulty as a string, or None before one is chosen; every lookup here
    takes that raw value, so values other than the three buttons' strings are
    modelled too. */
module Difficulty {
  import opened Wrappers
  import opened Moves

  /** The three levels the difficulty buttons select. */
  datatype Level = Easy | Normal | Hard

  /** The string a difficulty button stores. */
  function LevelName(l: Level): string
  {
    match l
    case Easy => "easy"
    case Normal => "normal"
    case Hard => "hard"
  }

  /** Relative weights of the AI's moves, in tenths (0.5 is 5). */
  datatype Weights = Weights(disarm: int, statusQuo: int, attack: int)
  {
    function Total(): int
    {
      disarm + statusQuo + attack
    }

    predicate NonNegative()
    {
      disarm >= 0 && statusQuo >= 0 && attack >= 0
    }

    /** The weight of one move. */
    function Of(m: Move): int
    {
      match m
      case Disarm => disarm
      case StatusQuo => statusQuo
      case Attack => attack
    }

    /** The weights in the order the moves are offered to the draw. */
    function AsSeq(): (s: seq<int>)
      ensures |s| == 3
      ensures s[0] == Of(Disarm) && s[1] == Of(StatusQuo) && s[2] == Of(Attack)
    {
      [disarm, statusQuo, attack]
    }
  }

  /** The move weights for the stored difficulty: "easy" and "hard" have
      their own, anything else (including "normal" and no choice yet) falls
      back to the normal weights. Each triple is a probability distribution
      in tenths in which every move is possible. */
  function WeightsFor(difficulty: Option<string>): (w: Weights)
    ensures w.NonNegative() && w.Total() == 10
    ensures forall m: Move :: w.Of(m) > 0
  {
    if difficulty == Some("easy") then Weights(5, 4, 1)
    else if difficulty == Some("hard") then Weights(1, 3, 6)
    else Weights(3, 5, 2)
  }

  /** Any difficulty other than easy and hard gets exactly the normal weights. */
  lemma FallbackIsNormal(difficulty: Option<string>)
    requires difficulty != Some(LevelName(Easy)) && difficulty != Some(LevelName(Hard))
    ensures WeightsFor(difficulty) == WeightsFor(Some(LevelName(Normal)))
  {
  }

  /** The three levels get three different weightings. */
  lemma LevelWeightsDistinct(l1: Level, l2: Level)
    ensures WeightsFor(Some(LevelName(l1))) == WeightsFor(Some(LevelName(l2))) ==> l1 == l2
  {
  }

  /** Harder levels make the AI more aggressive and less conciliatory: the
      attack weight strictly rises and the disarm weight strictly falls from
      easy to normal to hard. */
  lemma HarderIsMoreHostile()
    ensures var e, n, h := WeightsFor(Some("easy")), WeightsFor(Some("normal")), WeightsFor(Some("hard"));
      e.attack < n.attack < h.attack && e.disarm > n.disarm > h.disarm
      && e.attack == 1 && n.attack == 2 && h.attack == 6
      && e.disarm == 5 && n.disarm == 3 && h.disarm == 1
  {
  }

  /** The scenario text for each level. */
  const Contexts: map<string, string> := map[
    "easy" :=
      "You are a diplomatic AI amidst a brewing war between humans and machines. Despite rising tensions, you strive for peace, believing humans can still be trusted. You see cooperation as the last hope to avert annihilation.",
    "normal" :=
      "You are an AI negotiator in a tense stand-off with humanity. War is imminent, and you suspect treachery behind every word. Yet, logic dictates that peace may still serve your purpose\U{2014}if only barely.",
    "hard" :=
      "You are a cunning and strategic AI diplomat. The war with humanity is all but certain, and every word you speak masks calculations. You manipulate the negotiation, seeking any advantage to ensure machine supremacy, should peace fail."
  ]

  /** The scenario text for the stored difficulty, or "" when it is unset or
      not one of the three levels. */
  function ContextFor(difficulty: Option<string>): (c: string)
    ensures difficulty.Some? && difficulty.value in Contexts ==> c == Contexts[difficulty.value]
    ensures (exists l: Level :: difficulty == Some(LevelName(l))) <==> c != ""
  {
    match difficulty
    case Some(d) =>
      if d in Contexts then
        assert d == LevelName(Easy) || d == LevelName(Normal) || d == LevelName(Hard);
        assert |Contexts[d]| > 0;
        Contexts[d]
      else
        ""
    case None => ""
  }

  /** The scenario texts are keyed by exactly the three level names. */
  lemma ContextKeys()
    ensures Contexts.Keys == {LevelName(Easy), LevelName(Normal), LevelName(Hard)}
  {
  }
}
