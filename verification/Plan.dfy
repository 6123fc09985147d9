// The plan gate's two mechanical decisions: Definition of Ready and the reading of a gate comment.
module Plan {
  import opened Text
  import opened Pipeline

  datatype Reason = OpenQuestionsRemain | NoAcceptanceCriteria | NonGoalsNotStated

  method DefinitionOfReady(spec: Spec) returns (ready: bool, reasons: seq<Reason>)
    ensures ready == IsReady(spec)
    ensures ready <==> reasons == []
    ensures OpenQuestionsRemain in reasons <==> spec.openQuestions > 0
    ensures NoAcceptanceCriteria in reasons <==> spec.acceptanceCriteria == 0
    ensures NonGoalsNotStated in reasons <==> spec.nonGoals == 0
  {
    reasons := [];
    if spec.openQuestions > 0 { reasons := reasons + [OpenQuestionsRemain]; }
    if spec.acceptanceCriteria == 0 { reasons := reasons + [NoAcceptanceCriteria]; }
    if spec.nonGoals == 0 { reasons := reasons + [NonGoalsNotStated]; }
    ready := |reasons| == 0;
  }

  predicate IsReady(spec: Spec) {
    spec.openQuestions == 0 && spec.acceptanceCriteria > 0 && spec.nonGoals > 0
  }

  datatype PlanDecision = Approve | Abort | Changes

  // The command stands here, in any case, and is not the head of a longer word.
  predicate CommandAt(body: string, command: string, at: nat) {
    OccursAtIgnoringCase(body, command, at) && (at + |command| == |body| || !IsWord(body[at + |command|]))
  }

  predicate HasCommand(body: string, command: string) {
    exists at: nat | at < |body| :: CommandAt(body, command, at)
  }

  function ParsePlanDecision(body: string): PlanDecision {
    if HasCommand(body, "/approve") then Approve
    else if HasCommand(body, "/abort") then Abort
    else Changes
  }

  // The stuck gate reads its abort command differently: the trimmed comment must begin with it.
  predicate IsImplAbort(body: string) {
    OccursAtIgnoringCase(Trim(body), "/abort", 0)
  }

  // ---- What the comments say ----

  // The letters of `name`, each in either case, stand in `body` from `at` on.
  predicate IsSpelt(body: string, at: nat, name: string) {
    && at + |name| <= |body|
    && forall i | 0 <= i < |name| :: body[at + i] == name[i] || body[at + i] as int == name[i] as int - 32
  }

  // Neither a letter, nor a digit, nor an underscore.
  predicate EndsWord(c: char) {
    !('a' <= c <= 'z') && !('A' <= c <= 'Z') && !('0' <= c <= '9') && c != '_'
  }

  // A slash and the name, at the end of the comment or of the word.
  predicate IsCommandAt(body: string, at: nat, name: string) {
    && at < |body| && body[at] == '/' && IsSpelt(body, at + 1, name)
    && (at + 1 + |name| < |body| ==> EndsWord(body[at + 1 + |name|]))
  }

  predicate Commands(body: string, name: string) {
    exists at: nat | at < |body| :: IsCommandAt(body, at, name)
  }

  predicate IsLowerCase(name: string) {
    forall i | 0 <= i < |name| :: 'a' <= name[i] <= 'z'
  }

  // A slash and the letters, whatever their case.
  lemma SpeltIff(body: string, at: nat, name: string)
    requires IsLowerCase(name)
    ensures OccursAtIgnoringCase(body, "/" + name, at) <==> at < |body| && body[at] == '/' && IsSpelt(body, at + 1, name)
  {
    var word := "/" + name;
    assert word[0] == '/';
    assert forall i | 0 <= i < |name| :: word[i + 1] == name[i];
    if OccursAtIgnoringCase(body, word, at) {
      assert Lower(body[at + 0]) == '/';
      forall i | 0 <= i < |name|
        ensures body[at + 1 + i] == name[i] || body[at + 1 + i] as int == name[i] as int - 32
      {
        assert Lower(body[at + (i + 1)]) == word[i + 1];
      }
    }
    if at < |body| && body[at] == '/' && IsSpelt(body, at + 1, name) {
      forall i | 0 <= i < |word| ensures Lower(body[at + i]) == word[i] {
        if i > 0 {
          assert body[at + 1 + (i - 1)] == name[i - 1] || body[at + 1 + (i - 1)] as int == name[i - 1] as int - 32;
        }
      }
    }
  }

  lemma CommandIff(body: string, at: nat, name: string)
    requires IsLowerCase(name)
    ensures at < |body| && CommandAt(body, "/" + name, at) <==> IsCommandAt(body, at, name)
  {
    hide IsSpelt, OccursAtIgnoringCase;
    SpeltIff(body, at, name);
    SpeltFits(body, at + 1, name);
  }

  lemma SpeltFits(body: string, at: nat, name: string)
    ensures IsSpelt(body, at, name) ==> at + |name| <= |body|
  {
  }

  // A comment is an approval exactly if it commands so, and otherwise an abort exactly if it commands that.
  lemma DecisionIff(body: string)
    ensures ParsePlanDecision(body).Approve? <==> Commands(body, "approve")
    ensures ParsePlanDecision(body).Abort? <==> !Commands(body, "approve") && Commands(body, "abort")
  {
    assert "/" + "approve" == "/approve" && "/" + "abort" == "/abort";
    HasCommandIff(body, "approve");
    HasCommandIff(body, "abort");
  }

  lemma HasCommandIff(body: string, name: string)
    requires IsLowerCase(name)
    ensures HasCommand(body, "/" + name) <==> Commands(body, name)
  {
    hide CommandAt, IsCommandAt;
    forall at: nat | at < |body| ensures CommandAt(body, "/" + name, at) <==> IsCommandAt(body, at, name) {
      CommandIff(body, at, name);
    }
  }

  // Nothing without a slash is a command, and neither is the head of a longer word.
  lemma NoCommand(body: string)
    requires '/' !in body || exists c :: body == "/approve" + [c] && !EndsWord(c)
    ensures ParsePlanDecision(body).Changes?
  {
    hide ParsePlanDecision;
    DecisionIff(body);
    forall at: nat | at < |body| ensures !IsCommandAt(body, at, "approve") && !IsCommandAt(body, at, "abort") {
      if body[at] == '/' {
        var c :| body == "/approve" + [c] && !EndsWord(c);
        assert at == 0 && body[8] == c && body[2] == 'p';
      }
    }
  }

  // The stuck gate aborts exactly if the first thing the comment says is the command, whatever follows it.
  lemma ImplAbortIff(body: string)
    ensures IsImplAbort(body) <==>
      exists at: nat | at < |body| ::
        (forall k | 0 <= k < at :: IsSpace(body[k])) && body[at] == '/' && IsSpelt(body, at + 1, "abort")
  {
    var from, to := TrimIs(body);
    assert "/" + "abort" == "/abort";
    SpeltIff(Trim(body), 0, "abort");
    if IsImplAbort(body) {
      SpeltInside(body, from, to);
    }
    if at: nat :| at < |body| && (forall k | 0 <= k < at :: IsSpace(body[k]))
                  && body[at] == '/' && IsSpelt(body, at + 1, "abort") {
      assert at == from;
      assert !IsSpace(body[at + 1 + 4]) by { assert "abort"[4] == 't'; }
      SpeltInside(body, from, to);
    }
  }

  lemma SpeltInside(body: string, from: nat, to: nat)
    requires from < to <= |body| && from + 6 <= |body|
    ensures IsSpelt(body[from..to], 1, "abort") <==> from + 6 <= to && IsSpelt(body, from + 1, "abort")
  {
    if from + 6 <= to {
      assert forall j | 1 <= j < 6 :: body[from..to][j] == body[from + j];
    }
  }
}
