/** The keyword guardrail of main.py: a query is refused when its lower-cased
    text contains one of four forbidden words. */
module KeywordGuard {
  import opened Text

  const ForbiddenWords: seq<string> := ["dangerous", "ghetto", "crime", "sketchy"]

  const ReframeMessage: string :=
    "REFRAME: I can help you compare areas based on lighting and transit instead of subjective labels."

  const SafeMessage: string := "Safe"

  /** `validate_safety(user_input)`: (False, the reframe message) when a
      forbidden word occurs in the lower-cased input, else (True, "Safe"). */
  function ValidateSafety(userInput: string): (r: (bool, string))
    ensures !r.0 <==> exists k :: 0 <= k < |ForbiddenWords| && Contains(Lower(userInput), ForbiddenWords[k])
    ensures r.1 == if r.0 then SafeMessage else ReframeMessage
  {
    if AnyContained(Lower(userInput), ForbiddenWords) then (false, ReframeMessage)
    else (true, SafeMessage)
  }

  /** The verdict depends on the input only through its lower-cased form, so
      two inputs that differ only in the case of their letters get the same
      answer. */
  lemma CaseInsensitive(s: string, t: string)
    requires |s| == |t|
    requires forall i :: 0 <= i < |s| ==> LowerChar(s[i]) == LowerChar(t[i])
    ensures ValidateSafety(s) == ValidateSafety(t)
  {
    assert Lower(s) == Lower(t);
  }

  /** A refused input stays refused when text is added before or after it. */
  lemma ExtendingKeepsRejected(prefix: string, s: string, suffix: string)
    requires !ValidateSafety(s).0
    ensures ValidateSafety(prefix + s + suffix) == (false, ReframeMessage)
  {
    var k :| 0 <= k < |ForbiddenWords| && Contains(Lower(s), ForbiddenWords[k]);
    LowerAppend(prefix + s, suffix);
    LowerAppend(prefix, s);
    ContainsInLarger(Lower(prefix), Lower(s), Lower(suffix), ForbiddenWords[k]);
  }
}
