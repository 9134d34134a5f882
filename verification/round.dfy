/** The final decision: once the player presses one of the three move
    buttons, the AI draws its move and the pair is resolved into the ending
    line shown on screen. The AI's reply text is not modelled. */
module Round {
  import opened Wrappers
  import opened Moves
  import opened Difficulty
  import opened Draw
  import opened Endings

  /** One final decision for a button press and an injected draw. The ending
      always exists, since a button only ever supplies one of the three move
      strings and the draw only ever yields one; it is the table's entry for
      the player's move against the AI move whose bucket holds the draw. */
  method Decide(difficulty: Option<string>, player: Move, x: int) returns (aiChoice: string, lines: seq<string>)
    requires 0 <= x < 10
    ensures Parse(aiChoice).Some?
    ensures lines == [Narrative(Outcome(player, Parse(aiChoice).value))]
    ensures Parse(aiChoice).value == Bucket(WeightsFor(difficulty), x)
  {
    aiChoice := AiChoice(difficulty, x);
    var ai := Bucket(WeightsFor(difficulty), x);
    ParseName(ai);
    ResolveTotal(player, ai);
    var ending := ResolveEnding(Name(player), aiChoice);
    lines := ending.value;
  }
}
