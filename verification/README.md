# 89 Seconds — move-resolution model

A Dafny model of the decision layer of "89 Seconds", a desktop negotiation
game in which the player talks to a dialogue model against the clock and then
both sides commit to one of three moves: "disarm", "status quo" or "attack".
The model covers what happens around those moves, all in `main.py`:

- the payoff table `resolve_ending`, which turns a (player move, AI move)
  pair of strings into a one-line list holding one of nine narrative endings,
  or into Python's `None` when the pair matches no branch (`endings.dfy`);
- the difficulty-indexed move weights and the scenario texts (`difficulty.dfy`);
- the AI's weighted move draw, with the randomness injected (`draw.dfy`);
- the prompt built for the dialogue model (`prompt.dfy`);
- the acceptance guard on a submitted player message (`input.dfy`);
- the final decision after a move button is pressed (`round.dfy`).

`moves.dfy` names the three moves and parses their strings; `wrappers.dfy`
holds the `Option` type that stands in for "a value or `None`".

Modelling choices:

- The stored difficulty is a Python string or `None`, so every lookup takes
  an `Option<string>` and values other than the three button strings are
  modelled: they get the empty scenario text and the normal weights.
- Weights are exact integer tenths (0.5 is 5); each triple sums to 10.
- The standard library's weighted choice is abstracted as cumulative-bucket
  selection over the running totals of the weights. The uniform random number
  in [0, 1) is injected as a whole number of tenths `x` in [0, 10), that is,
  the number times ten rounded down. With integer running totals, "x is below
  a running total" holds for the real number exactly when it holds for its
  floor, so the bucket chosen is the same.
- Strings are Dafny `string`s of Unicode scalar values; the ending lines keep
  their emoji and the typographic apostrophe in "could’ve".

Behaviour of `main.py` the model keeps:

- An unset or unknown difficulty is not an error: `contexts.get` falls back
  to "" (main.py:39) and the else branch gives the normal weights
  (main.py:62-63).
- An unmatched pair falls through every branch to Python's implicit `None`
  (main.py:68-86).
- The AI's weights depend on the difficulty alone (main.py:58-63).
- (attack, disarm) is "Aggressive Victory" and (attack, status quo) is
  "Pyrrhic Victory" (main.py:71-74).
- After the countdown the move buttons appear (main.py:176) and the player
  must press one.

## Model

| member | source | states |
|---|---|---|
| Moves.Parse | main.py:65 | a string names a move exactly when it is "disarm", "status quo" or "attack", and then the move's name is that string |
| Moves.ParseName | main.py:118-120 | each move's string parses back to that move |
| Moves.NameInjective | main.py:65 | the three move strings are pairwise distinct |
| Endings.MatchEnding | main.py:68-86 | the comparison chain matches some branch exactly when both strings are move strings |
| Endings.ResolveEnding | main.py:68-86 | an ending exists exactly when both strings are move strings; when it does, it is a one-line list |
| Endings.MatchTotal | main.py:68-86 | each of the nine move pairs meets the branch of its payoff-table entry |
| Endings.ResolveTotal | main.py:68-86 | every one of the nine move pairs resolves to the one line of its payoff-table entry |
| Endings.ChainMatchesTable | main.py:68-86 | for all strings, the comparison chain equals the payoff table on move pairs and gives None otherwise |
| Endings.Title | main.py:70-86 | no ending title contains a colon |
| Endings.NarrativeEndsWithTitle | main.py:70-86 | each ending line closes with "Ending: " and its title and a full stop |
| Endings.TitleInjective | main.py:70-86 | the nine titles are pairwise distinct |
| Endings.NarrativeInjective | main.py:70-86 | the nine ending lines are pairwise distinct |
| Endings.OutcomeInjective | main.py:68-86 | the table sends the nine move pairs to nine different endings |
| Endings.LinesInjective | main.py:69-86 | the displayed one-line list determines the ending behind it |
| Endings.ResolveDistinct | main.py:68-86 | the ending line shown determines both moves, so different move pairs are shown different lines |
| Endings.NotSymmetric | main.py:71-78 | (attack, disarm) is Aggressive Victory but (disarm, attack) is Betrayed Idealism; (attack, status quo) is Pyrrhic Victory but (status quo, attack) is Fatal Indecision |
| Endings.SamePairEndings | main.py:69-82 | both attack is Mutually Assured Destruction, both disarm is True Peace, both hold is Global Cold |
| Difficulty.WeightsFor | main.py:58-63 | every difficulty value gets non-negative weights summing to ten tenths, with every move possible |
| Difficulty.FallbackIsNormal | main.py:62-63 | any value other than "easy" and "hard", including unset, gets the normal weights |
| Difficulty.LevelWeightsDistinct | main.py:58-63 | the three levels get three different weightings |
| Difficulty.HarderIsMoreHostile | main.py:58-63 | from easy to normal to hard the attack weight strictly rises (1, 2, 6 tenths) and the disarm weight strictly falls (5, 3, 1 tenths) |
| Difficulty.ContextFor | main.py:39 | a known level gets its own scenario text, and the text is non-empty exactly when the difficulty is one of the three levels |
| Difficulty.ContextKeys | main.py:24-34 | scenario texts exist for exactly "easy", "normal" and "hard" |
| Draw.SumPrefixMonotone | main.py:65 | running totals of non-negative weights never decrease |
| Draw.BucketUnique | main.py:65 | a draw lies in at most one cumulative-weight bucket |
| Draw.SelectBucket | main.py:65 | the selected index is the bucket holding the draw, and its weight is positive |
| Draw.Bucket | main.py:65 | the move drawn has positive weight and its bucket holds the draw |
| Draw.BucketAgrees | main.py:65 | bucket selection over the three weights picks the move string of the three-bucket reading |
| Draw.AiChoice | main.py:58-65 | the AI's move is always one of the three move strings, the one whose bucket for the difficulty's weights holds the draw |
| Draw.CountDrawsPrefix | main.py:65 | among the first n draws, a move gets exactly those inside its bucket |
| Draw.DrawFrequency | main.py:65 | over all draws each move is chosen as often as its weight, so a uniform draw plays it with probability weight / total |
| Prompt.BuildPrompt | main.py:39-40 | the prompt is the scenario text, then "\nPlayer: ", then the player message |
| Prompt.MessageOfPrompt | main.py:39-40 | the player message can be read back from its prompt |
| Prompt.PromptOfMessage | main.py:39-40 | a message read back from a prompt rebuilds that same prompt |
| Prompt.PromptInjective | main.py:39-40 | different messages under one difficulty give different prompts |
| Prompt.UnknownDifficultyPrompt | main.py:39-40 | with no known level the prompt is the marker "\nPlayer: " followed by the message |
| Input.LeadingSpace | main.py:160 | the leading run cut by strip is all whitespace and is followed by a non-whitespace character or the end |
| Input.TrailingSpace | main.py:160 | the trailing run cut by strip is all whitespace and is preceded by a non-whitespace character or the start |
| Input.Strip | main.py:160 | the stripped text is the slice left after cutting whitespace at both ends, it has none at either end, and it is empty exactly when the input is all whitespace |
| Input.StripKeepsTrimmed | main.py:160 | a text with no whitespace at either end is its own stripped form |
| Input.StripIdempotent | main.py:160 | stripping twice is stripping once |
| Input.AcceptInput | main.py:160-161 | a message is taken exactly when the game is not over and it has a non-whitespace character; what is taken is the non-empty stripped text |
| Input.HandleInput | main.py:158-162 | an accepted message becomes the remembered player input, an ignored one changes nothing, and the game-over flag is never touched |
| Round.Decide | main.py:178-186 | after a move button, the AI's move is a move string chosen by the draw, and the screen gets exactly the table's ending line for the pair |

## Left out

- The tkinter window, buttons, text widget and their enabling and disabling
  (main.py:88-147, 163-176, 183-188): presentation only.
- The countdown in `start_timer` (main.py:149-156): a daemon thread that
  sleeps on the wall clock and sets the shared game-over flag; the model takes
  that flag as an input.
- Loading and running the dialogue model (main.py:16-22, 42-56), including
  the growing token history: opaque calls into a machine-learning library. The
  reply text is not modelled; only the prompt handed to it is.
- The AI move drawn while answering an ordinary message (main.py:165) is
  discarded by the game and is not modelled separately.
- The internals of the standard library's weighted choice, its floating-point
  running totals and its random number generator: replaced by integer tenths
  and an injected draw.
- Draw.AiChoice: takes the draw as whole tenths, so it does not model
  floating-point rounding at the bucket boundaries of the real-valued draw.
- Module-level globals and the start-up `print` calls (main.py:10-20):
  plumbing; the globals become parameters.
