/** The text handed to the dialogue model for one player message: the
    scenario for the stored difficulty, a line break, "Player: ", then the
    message. The model call itself is not part of this module. */
module Prompt {
  import opened Wrappers
  import opened Difficulty

  /** What separates the scenario from the player's message. */
  const PlayerMarker: string := "\nPlayer: "

  /** The prompt for a player message under the stored difficulty. */
  function BuildPrompt(difficulty: Option<string>, playerMsg: string): (p: string)
    ensures |p| == |ContextFor(difficulty)| + |PlayerMarker| + |playerMsg|
    ensures p[..|ContextFor(difficulty)|] == ContextFor(difficulty)
    ensures p[|ContextFor(difficulty)|..|p| - |playerMsg|] == PlayerMarker
    ensures p[|p| - |playerMsg|..] == playerMsg
  {
    ContextFor(difficulty) + PlayerMarker + playerMsg
  }

  /** The player message a prompt carries, if it was built for this difficulty. */
  function MessageOf(difficulty: Option<string>, p: string): Option<string>
  {
    var head := ContextFor(difficulty) + PlayerMarker;
    if |head| <= |p| && p[..|head|] == head then Some(p[|head|..]) else None
  }

  /** The message can always be read back from its prompt. */
  lemma MessageOfPrompt(difficulty: Option<string>, msg: string)
    ensures MessageOf(difficulty, BuildPrompt(difficulty, msg)) == Some(msg)
  {
  }

  /** Conversely, whatever is read back rebuilds the same prompt. */
  lemma PromptOfMessage(difficulty: Option<string>, p: string, msg: string)
    requires MessageOf(difficulty, p) == Some(msg)
    ensures BuildPrompt(difficulty, msg) == p
  {
  }

  /** Different messages under one difficulty give different prompts. */
  lemma PromptInjective(difficulty: Option<string>, m1: string, m2: string)
    ensures BuildPrompt(difficulty, m1) == BuildPrompt(difficulty, m2) ==> m1 == m2
  {
  }

  /** With no level selected (or an unknown one) the prompt is only the
      marker and the message. */
  lemma UnknownDifficultyPrompt(difficulty: Option<string>, msg: string)
    requires forall l: Level :: difficulty != Some(LevelName(l))
    ensures BuildPrompt(difficulty, msg) == PlayerMarker + msg
  {
  }
}
