// Removing an access token from text before it is logged or thrown.
module Redaction {
  import opened Wrappers
  import opened Text

  // The first position from `from` on at which `token` stands in `text`.
  function FirstAt(text: string, token: string, from: nat): (r: Option<nat>)
    requires from <= |text|
    ensures r.Some? ==> from <= r.value && OccursAt(text, token, r.value)
    ensures forall i: nat | from <= i < (if r.Some? then r.value else |text| + 1) :: !OccursAt(text, token, i)
    decreases |text| - from
  {
    if OccursAt(text, token, from) then Some(from)
    else if from == |text| then None
    else FirstAt(text, token, from + 1)
  }

  // The pieces between the leftmost, non-overlapping occurrences of `token`.
  function Split(text: string, token: string): (pieces: seq<string>)
    requires token != ""
    ensures pieces != []
    decreases |text|
  {
    var at := FirstAt(text, token, 0);
    if at.None? then [text] else [text[..at.value]] + Split(text[at.value + |token|..], token)
  }

  function Join(pieces: seq<string>, separator: string): string
    requires pieces != []
  {
    if |pieces| == 1 then pieces[0] else pieces[0] + separator + Join(pieces[1..], separator)
  }

  const STARS: string := "***"

  function RedactToken(text: string, token: string): string {
    if token == "" then text else Join(Split(text, token), STARS)
  }

  // Splitting loses nothing but the occurrences themselves.
  lemma {:induction false} SplitJoin(text: string, token: string)
    requires token != ""
    ensures Join(Split(text, token), token) == text
    decreases |text|
  {
    var at := FirstAt(text, token, 0);
    if at.Some? {
      var rest := text[at.value + |token|..];
      SplitJoin(rest, token);
      assert Split(text, token)[1..] == Split(rest, token);
      assert text == text[..at.value] + token + rest;
    }
  }

  // A token that the stars cannot help to rebuild: it neither begins nor ends with one, nor holds all three.
  predicate SafeToken(token: string) {
    token != "" && token[0] != '*' && token[|token| - 1] != '*' && !Contains(token, STARS)
  }

  lemma OccurrenceReads(text: string, token: string, at: nat, k: nat)
    requires OccursAt(text, token, at) && k < |token|
    ensures text[at + k] == token[k]
  {
    assert text[at..at + |token|][k] == text[at + k];
  }

  // What of the stars an occurrence takes in.
  lemma OccurrenceTakes(left: string, right: string, token: string, at: nat)
    requires OccursAt(left + STARS + right, token, at) && token != ""
    ensures |left| <= at < |left| + 3 ==> token[0] == '*'
    ensures |left| < at + |token| <= |left| + 3 ==> token[|token| - 1] == '*'
    ensures at <= |left| && |left| + 3 <= at + |token| ==> Contains(token, STARS)
  {
    var all := left + STARS + right;
    OccurrenceReads(all, token, at, 0);
    OccurrenceReads(all, token, at, |token| - 1);
    if at <= |left| && |left| + 3 <= at + |token| {
      var k := |left| - at;
      assert token[k..k + 3] == all[|left|..|left| + 3] == STARS;
      assert OccursAt(token, STARS, k);
    }
  }

  // An occurrence of a safe token lies wholly to one side of the stars.
  lemma OnOneSide(left: string, right: string, token: string, at: nat)
    requires OccursAt(left + STARS + right, token, at) && SafeToken(token)
    ensures OccursAt(left, token, at) || (at >= |left| + 3 && OccursAt(right, token, at - |left| - 3))
  {
    var all := left + STARS + right;
    OccurrenceTakes(left, right, token, at);
    if at + |token| <= |left| {
      assert left[at..at + |token|] == all[at..at + |token|];
    } else if at >= |left| + 3 {
      var k := at - |left| - 3;
      assert right[k..k + |token|] == all[at..at + |token|];
    }
  }

  // The text after the first occurrence.
  function After(text: string, token: string): string
    requires FirstAt(text, token, 0).Some?
  {
    text[FirstAt(text, token, 0).value + |token|..]
  }

  function Before(text: string, token: string): string
    requires FirstAt(text, token, 0).Some?
  {
    text[..FirstAt(text, token, 0).value]
  }

  lemma SplitFirst(text: string, token: string)
    requires token != ""
    ensures Split(text, token) ==
      if FirstAt(text, token, 0).None? then [text] else [Before(text, token)] + Split(After(text, token), token)
  {
    hide FirstAt, OccursAt;
  }

  // The first occurrence is replaced, and the rest of the text redacted.
  lemma RedactFirst(text: string, token: string)
    requires token != ""
    ensures RedactToken(text, token) ==
      if FirstAt(text, token, 0).None? then text
      else Before(text, token) + STARS + RedactToken(After(text, token), token)
  {
    hide FirstAt, OccursAt, Before, After, Split;
    SplitFirst(text, token);
    if FirstAt(text, token, 0).Some? {
      hide Join;
      JoinCons(Before(text, token), Split(After(text, token), token), STARS);
    }
  }

  lemma JoinCons(piece: string, pieces: seq<string>, separator: string)
    requires pieces != []
    ensures Join([piece] + pieces, separator) == piece + separator + Join(pieces, separator)
  {
    assert ([piece] + pieces)[1..] == pieces;
  }

  // What comes before the first occurrence contains none.
  lemma NoneBeforeFirst(text: string, token: string, at: nat)
    requires FirstAt(text, token, 0).Some?
    ensures !OccursAt(Before(text, token), token, at) || token == ""
  {
    var left := Before(text, token);
    if OccursAt(left, token, at) && token != "" {
      assert text[at..at + |token|] == left[at..at + |token|];
      assert OccursAt(text, token, at);
    }
  }

  lemma {:induction false} TokenGone(text: string, token: string, at: nat)
    requires SafeToken(token)
    ensures !OccursAt(RedactToken(text, token), token, at)
    decreases |text|
  {
    hide RedactToken;
    RedactFirst(text, token);
    if FirstAt(text, token, 0).Some? {
      var left, rest := Before(text, token), After(text, token);
      assert |rest| < |text|;
      NoneBeforeFirst(text, token, at);
      hide OccursAt, FirstAt, Before, After, Contains;
      if at >= |left| + 3 { TokenGone(rest, token, at - |left| - 3); }
      if OccursAt(RedactToken(text, token), token, at) {
        OnOneSide(left, RedactToken(rest, token), token, at);
      }
    }
  }

  // A safe token is nowhere in the redacted text.
  lemma NoTokenLeft(text: string, token: string)
    requires SafeToken(token)
    ensures !Contains(RedactToken(text, token), token)
  {
    hide SafeToken;
    forall at: nat ensures !OccursAt(RedactToken(text, token), token, at) {
      TokenGone(text, token, at);
    }
  }

  // Text without the token is left alone, and so is any text if there is no token.
  lemma CleanTextUnchanged(text: string, token: string)
    requires token == "" || !Contains(text, token)
    ensures RedactToken(text, token) == text
  {
    if token != "" {
      var first := FirstAt(text, token, 0);
      if first.Some? { assert Contains(text, token); }
    }
  }

  // ---- Exactly which tokens are removed ----

  lemma ShorterUnchanged(text: string, token: string)
    requires |text| < |token|
    ensures RedactToken(text, token) == text
  {
    CleanTextUnchanged(text, token);
  }

  // A text in which the token first stands after `left`, with less than a token to its right.
  lemma RedactsTo(left: string, token: string, right: string)
    requires |right| < |token|
    requires forall i: nat | i < |left| :: !OccursAt(left + token + right, token, i)
    ensures RedactToken(left + token + right, token) == left + STARS + right
  {
    var text := left + token + right;
    hide RedactToken;
    RedactFirst(text, token);
    assert OccursAt(text, token, |left|) by { assert text[|left|..|left| + |token|] == token; }
    assert FirstAt(text, token, 0) == Some(|left|);
    assert Before(text, token) == left && After(text, token) == right;
    ShorterUnchanged(right, token);
  }

  // The token begins with a star: the stars' last one takes its place.
  lemma LeadingStarLeaks(token: string)
    requires token != "" && token[0] == '*'
    ensures Contains(RedactToken(token + token[1..], token), token)
  {
    var rest := token[1..];
    assert "" + token + rest == token + rest;
    RedactsTo("", token, rest);
    var r := "" + STARS + rest;
    assert r[2..2 + |token|] == token;
    assert OccursAt(r, token, 2);
  }

  lemma NotBeforeItself(front: string, token: string, i: nat)
    requires token == front + "*" && token[0] != '*' && i < |front|
    ensures !OccursAt(front + token, token, i)
  {
    if OccursAt(front + token, token, i) {
      OccurrenceReads(front + token, token, i, 0);
      OccurrenceReads(front + token, token, i, |front|);
    }
  }

  // The token ends with a star, and does not begin with one: the stars' first one takes its place.
  lemma TrailingStarLeaks(token: string)
    requires token != "" && token[|token| - 1] == '*' && token[0] != '*'
    ensures Contains(RedactToken(token[..|token| - 1] + token, token), token)
  {
    var front := token[..|token| - 1];
    assert front + token + "" == front + token;
    forall i: nat | i < |front| ensures !OccursAt(front + token, token, i) { NotBeforeItself(front, token, i); }
    RedactsTo(front, token, "");
    var r := front + STARS + "";
    assert r[0..|token|] == token;
    assert OccursAt(r, token, 0);
  }

  // The first three stars in a row start at `at`.
  predicate FirstStars(token: string, at: nat) {
    OccursAt(token, STARS, at) && forall i: nat | i < at :: !OccursAt(token, STARS, i)
  }

  // In what comes before the stars, said twice, and the stars themselves, no token starts early: its own
  // stars would have to.
  lemma NotBeforeItsStars(token: string, at: nat, y: string, i: nat)
    requires FirstStars(token, at) && i < at
    ensures !OccursAt(token[..at] + token + y, token, i)
  {
    var x := token[..at];
    var text := x + token + y;
    if OccursAt(text, token, i) {
      OccurrenceReads(token, STARS, at, 0);
      OccurrenceReads(token, STARS, at, 1);
      OccurrenceReads(token, STARS, at, 2);
      OccurrenceReads(text, token, i, at);
      OccurrenceReads(text, token, i, at + 1);
      OccurrenceReads(text, token, i, at + 2);
      StarsOccur(token, i);
    }
  }

  lemma StarsOccur(token: string, i: nat)
    requires i + 3 <= |token| && token[i] == '*' && token[i + 1] == '*' && token[i + 2] == '*'
    ensures OccursAt(token, STARS, i)
  {
    assert token[i..i + 3] == STARS;
  }

  // The token holds three stars in a row: those that replace it make up its middle.
  lemma InnerStarsLeak(token: string, at: nat)
    requires FirstStars(token, at)
    ensures exists text :: Contains(RedactToken(text, token), token)
  {
    var x, y := token[..at], token[at + 3..];
    assert token == x + STARS + y;
    forall i: nat | i < at ensures !OccursAt(x + token + y, token, i) { NotBeforeItsStars(token, at, y, i); }
    RedactsTo(x, token, y);
    assert OccursAt(x + STARS + y, token, 0) by { assert token[0..|token|] == token; }
    assert Contains(RedactToken(x + token + y, token), token);
  }

  lemma FirstOf(token: string, at: nat) returns (first: nat)
    requires OccursAt(token, STARS, at)
    ensures FirstStars(token, first)
  {
    first := FirstAt(token, STARS, 0).value;
  }

  lemma UnsafeLeaks(token: string)
    requires token != "" && !SafeToken(token)
    ensures exists text :: Contains(RedactToken(text, token), token)
  {
    hide RedactToken, OccursAt;
    if token[0] == '*' {
      LeadingStarLeaks(token);
    } else if token[|token| - 1] == '*' {
      TrailingStarLeaks(token);
    } else {
      var at: nat :| at <= |token| && OccursAt(token, STARS, at);
      var first := FirstOf(token, at);
      InnerStarsLeak(token, first);
    }
  }

  // Redaction removes a token from every text exactly if the token neither begins nor ends with a star
  // nor holds three in a row.
  lemma RemovedIff(token: string)
    requires token != ""
    ensures (forall text :: !Contains(RedactToken(text, token), token)) <==> SafeToken(token)
  {
    hide RedactToken, Contains, SafeToken;
    if SafeToken(token) {
      forall text ensures !Contains(RedactToken(text, token), token) { NoTokenLeft(text, token); }
    } else {
      UnsafeLeaks(token);
    }
  }
}
