// ASCII string helpers behind the comment commands, the branch names and the path rules.
module Text {

  function Lower(c: char): char {
    if 'A' <= c <= 'Z' then (c as int + 32) as char else c
  }

  predicate IsDigit(c: char) {
    '0' <= c <= '9'
  }

  // The regular-expression class \w.
  predicate IsWord(c: char) {
    'a' <= c <= 'z' || 'A' <= c <= 'Z' || IsDigit(c) || c == '_'
  }

  // Tab, line feed, vertical tab, form feed and carriage return, besides the space itself.
  predicate IsSpace(c: char) {
    c == ' ' || 9 <= c as int <= 13
  }

  // `word` stands in `s` at position `at`.
  predicate OccursAt<T(==)>(s: seq<T>, word: seq<T>, at: nat) {
    at + |word| <= |s| && s[at..at + |word|] == word
  }

  predicate Contains<T(==)>(s: seq<T>, word: seq<T>) {
    exists at: nat | at <= |s| :: OccursAt(s, word, at)
  }

  predicate StartsWith(s: string, word: string) {
    OccursAt(s, word, 0)
  }

  predicate EndsWith(s: string, word: string) {
    |word| <= |s| && OccursAt(s, word, |s| - |word|)
  }

  // `word`, ignoring ASCII case, stands in `s` at position `at`.
  predicate OccursAtIgnoringCase(s: string, word: string, at: nat) {
    at + |word| <= |s| && forall i | 0 <= i < |word| :: Lower(s[at + i]) == word[i]
  }

  function TrimStart(s: string): string {
    if s != "" && IsSpace(s[0]) then TrimStart(s[1..]) else s
  }

  function TrimEnd(s: string): string {
    if s != "" && IsSpace(s[|s| - 1]) then TrimEnd(s[..|s| - 1]) else s
  }

  function Trim(s: string): string {
    TrimEnd(TrimStart(s))
  }

  // What is left of `s` between two runs of spaces.
  predicate IsCore(s: string, from: nat, to: nat) {
    && from <= to <= |s|
    && (forall k | 0 <= k < from :: IsSpace(s[k])) && (forall k | to <= k < |s| :: IsSpace(s[k]))
    && (from < to ==> !IsSpace(s[from]) && !IsSpace(s[to - 1]))
  }

  lemma {:induction false} TrimStartCuts(s: string) returns (n: nat)
    ensures n <= |s| && TrimStart(s) == s[n..] && (forall k | 0 <= k < n :: IsSpace(s[k])) && (n < |s| ==> !IsSpace(s[n]))
  {
    if s != "" && IsSpace(s[0]) {
      var m := TrimStartCuts(s[1..]);
      n := m + 1;
      forall k | 0 <= k < n ensures IsSpace(s[k]) {
        if k > 0 { assert s[1..][k - 1] == s[k]; }
      }
    } else {
      n := 0;
    }
  }

  lemma {:induction false} TrimEndCuts(s: string) returns (n: nat)
    ensures n <= |s| && TrimEnd(s) == s[..n] && (forall k | n <= k < |s| :: IsSpace(s[k])) && (n > 0 ==> !IsSpace(s[n - 1]))
  {
    if s != "" && IsSpace(s[|s| - 1]) {
      n := TrimEndCuts(s[..|s| - 1]);
    } else {
      n := |s|;
    }
  }

  // Trimming takes away the spaces at both ends, and nothing else.
  lemma TrimIs(s: string) returns (from: nat, to: nat)
    ensures IsCore(s, from, to) && Trim(s) == s[from..to]
  {
    from := TrimStartCuts(s);
    var n := TrimEndCuts(s[from..]);
    to := from + n;
    forall k | to <= k < |s| ensures IsSpace(s[k]) {
      assert s[from..][k - from] == s[k];
    }
  }
}
