/** The guard on a submitted player message: surrounding whitespace is
    stripped, and the message is taken only if something is left and the
    negotiation time has not run out. */
module Input {
  import opened Wrappers

  /** Python's str.isspace for a single character. */
  predicate IsSpace(c: char)
  {
    || c == ' '
    || '\t' <= c <= '\r'
    || '\U{1C}' <= c <= '\U{1F}'
    || c == '\U{85}'
    || c == '\U{A0}'
    || c == '\U{1680}'
    || '\U{2000}' <= c <= '\U{200A}'
    || c == '\U{2028}'
    || c == '\U{2029}'
    || c == '\U{202F}'
    || c == '\U{205F}'
    || c == '\U{3000}'
  }

  predicate AllSpace(s: string)
  {
    forall i :: 0 <= i < |s| ==> IsSpace(s[i])
  }

  /** The length of the whitespace run s starts with. */
  function LeadingSpace(s: string): (n: nat)
    ensures n <= |s| && AllSpace(s[..n])
    ensures n < |s| ==> !IsSpace(s[n])
  {
    if |s| > 0 && IsSpace(s[0]) then
      var m := LeadingSpace(s[1..]);
      assert s[..1 + m] == [s[0]] + s[1..][..m];
      1 + m
    else
      0
  }

  /** Where the whitespace run s ends with begins. */
  function TrailingSpace(s: string): (n: nat)
    ensures n <= |s| && AllSpace(s[n..])
    ensures n > 0 ==> !IsSpace(s[n - 1])
  {
    if |s| > 0 && IsSpace(s[|s| - 1]) then
      var m := TrailingSpace(s[..|s| - 1]);
      assert s[m..] == s[..|s| - 1][m..] + [s[|s| - 1]];
      m
    else
      |s|
  }

  /** s with its leading whitespace removed. */
  function TrimStart(s: string): string
  {
    s[LeadingSpace(s)..]
  }

  /** s with its trailing whitespace removed. */
  function TrimEnd(s: string): string
  {
    s[..TrailingSpace(s)]
  }

  /** A string made of two all-whitespace parts is all whitespace. */
  lemma AllSpaceConcat(a: string, b: string)
    requires AllSpace(a) && AllSpace(b)
    ensures AllSpace(a + b)
  {
    forall k | 0 <= k < |a + b|
      ensures IsSpace((a + b)[k])
    {
      if k >= |a| {
        assert (a + b)[k] == b[k - |a|];
      }
    }
  }

  /** Cutting the leading and then the trailing whitespace run leaves the
      slice s[i..i+|r|], and leaves nothing exactly when s is all whitespace. */
  lemma TrimBothEnds(s: string)
    ensures var i := LeadingSpace(s); var r := TrimEnd(TrimStart(s));
      i + |r| <= |s| && r == s[i..i + |r|] && AllSpace(s[..i]) && AllSpace(s[i + |r|..])
      && (r == "" <==> AllSpace(s))
  {
    var i := LeadingSpace(s);
    var t := s[i..];
    var j := TrailingSpace(t);
    assert s[i + j..] == t[j..];
    if j == 0 {
      assert s == s[..i] + t;
      AllSpaceConcat(s[..i], t);
    } else {
      assert s[i] == t[0];
    }
  }

  /** Python's str.strip() with no arguments: r is the slice of s left after
      the whitespace runs at both ends are cut off, i being the length of the
      leading run. */
  function Strip(s: string): (r: string)
    ensures var i := LeadingSpace(s);
      i + |r| <= |s| && r == s[i..i + |r|] && AllSpace(s[..i]) && AllSpace(s[i + |r|..])
    ensures |r| > 0 ==> !IsSpace(r[0]) && !IsSpace(r[|r| - 1])
    ensures r == "" <==> AllSpace(s)
  {
    TrimBothEnds(s);
    TrimEnd(TrimStart(s))
  }

  /** A string with no whitespace at either end is left as it is. */
  lemma StripKeepsTrimmed(s: string)
    requires |s| > 0 ==> !IsSpace(s[0]) && !IsSpace(s[|s| - 1])
    ensures Strip(s) == s
  {
  }

  /** Stripping twice is stripping once. */
  lemma StripIdempotent(s: string)
    ensures Strip(Strip(s)) == Strip(s)
  {
    StripKeepsTrimmed(Strip(s));
  }

  /** The message the game takes from the entry box, or None when it is
      ignored: it is taken exactly when the negotiation is still running and
      the entry holds a non-whitespace character, and what is taken is the
      stripped, non-empty text. */
  function AcceptInput(entry: string, gameOver: bool): (r: Option<string>)
    ensures r.Some? <==> !gameOver && exists i :: 0 <= i < |entry| && !IsSpace(entry[i])
    ensures r.Some? ==> r.value == Strip(entry) && |r.value| > 0
  {
    var msg := Strip(entry);
    if msg != "" && !gameOver then Some(msg) else None
  }

  /** What the game remembers between messages: the last accepted message
      and whether the negotiation is over. */
  datatype Session = Session(playerInput: string, gameOver: bool)

  /** Submitting the entry text: an accepted message becomes the remembered
      input; an ignored one leaves the session as it was. The flag is never
      changed here. */
  function HandleInput(s: Session, entry: string): (s': Session)
    ensures s'.gameOver == s.gameOver
    ensures AcceptInput(entry, s.gameOver).None? ==> s' == s
    ensures AcceptInput(entry, s.gameOver).Some? ==> s'.playerInput == Strip(entry) != ""
  {
    match AcceptInput(entry, s.gameOver)
    case Some(msg) => s.(playerInput := msg)
    case None => s
  }
}
