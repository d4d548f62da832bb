/**
 * `ValidateDeployRequest`: the service name must match the RFC 1123 label
 * pattern `^[a-z0-9]([-a-z0-9]*[a-z0-9])?$` (section 2.1 of RFC 1123). The
 * pattern has no length bound, so neither does this model.
 */
module DeployValidation {
  import opened Wrappers
  import opened DeployObjects

  predicate IsAlphanumeric(c: char)
  {
    'a' <= c <= 'z' || '0' <= c <= '9'
  }

  predicate IsLabelChar(c: char)
  {
    IsAlphanumeric(c) || c == '-'
  }

  /** The DNS-label rule in words: non-empty, only `[a-z0-9-]`, no hyphen at either end. */
  predicate IsDnsLabel(s: string)
  {
    && |s| > 0
    && (forall i :: 0 <= i < |s| ==> IsLabelChar(s[i]))
    && s[0] != '-'
    && s[|s| - 1] != '-'
  }

  /** `[-a-z0-9]*[a-z0-9]` matched against the whole of `t`. */
  predicate MatchesStarThenAlphanumeric(t: string)
  {
    if |t| == 0 then false
    else if |t| == 1 then IsAlphanumeric(t[0])
    else IsLabelChar(t[0]) && MatchesStarThenAlphanumeric(t[1..])
  }

  /** The whole pattern `^[a-z0-9]([-a-z0-9]*[a-z0-9])?$`, read clause by clause. */
  predicate MatchesLabelPattern(s: string)
  {
    |s| > 0 && IsAlphanumeric(s[0]) && (s[1..] == [] || MatchesStarThenAlphanumeric(s[1..]))
  }

  lemma {:induction false} StarThenAlphanumericMeaning(t: string)
    ensures MatchesStarThenAlphanumeric(t) <==>
      |t| > 0 && (forall i :: 0 <= i < |t| ==> IsLabelChar(t[i])) && IsAlphanumeric(t[|t| - 1])
    decreases |t|
  {
    if |t| > 1 {
      StarThenAlphanumericMeaning(t[1..]);
      assert forall i :: 1 <= i < |t| ==> t[i] == t[1..][i - 1];
    }
  }

  /** The pattern accepts exactly the DNS labels. */
  lemma PatternIsDnsLabel(s: string)
    ensures MatchesLabelPattern(s) <==> IsDnsLabel(s)
  {
    if |s| > 1 {
      StarThenAlphanumericMeaning(s[1..]);
      assert forall i :: 1 <= i < |s| ==> s[i] == s[1..][i - 1];
    }
  }

  /** The error text `fmt.Errorf("(%s) must be a valid DNS entry for service name", name)`. */
  function InvalidNameMessage(name: string): (msg: string)
    ensures |msg| > |name| + 1
    ensures msg[0] == '(' && msg[|name| + 1] == ')' && msg[1..|name| + 1] == name
  {
    var tail := ") must be a valid DNS entry for service name";
    var msg := "(" + name + tail;
    assert msg[1..|name| + 1] == name && msg[|name| + 1] == tail[0];
    msg
  }

  /**
   * `ValidateDeployRequest`: Ok for a DNS label, otherwise an error whose
   * text names the rejected service in parentheses.
   */
  function ValidateDeployRequest(request: CreateFunctionRequest): (r: Result<()>)
    ensures r.Ok? <==> IsDnsLabel(request.service)
    ensures r.Err? ==>
      && |r.error| > |request.service| + 1
      && r.error[0] == '(' && r.error[|request.service| + 1] == ')'
      && r.error[1..|request.service| + 1] == request.service
  {
    PatternIsDnsLabel(request.service);
    if MatchesLabelPattern(request.service) then Ok(())
    else
      Err(InvalidNameMessage(request.service))
  }

  /** The names of the end-to-end scenario: "echo" passes, "Bad_Name" is refused. */
  lemma ValidationExamples(r: CreateFunctionRequest)
    ensures ValidateDeployRequest(r.(service := "echo")).Ok?
    ensures ValidateDeployRequest(r.(service := "Bad_Name")).Err?
    ensures ValidateDeployRequest(r.(service := "-echo")).Err?
    ensures ValidateDeployRequest(r.(service := "")).Err?
  {
  }
}
