/**
 * Guard chains. Every server action of the application checks its input with a
 * fixed sequence of `if (...) return json({ errors ... }, { status: 400 })`
 * statements. The reference meaning of such a chain is the message of the FIRST
 * rule, in order, whose condition is violated.
 */
module Guards {
  import opened Wrappers

  /** One check of a chain: whether the input passes it, and the message shown if not. */
  datatype Rule = Rule(passes: bool, message: string)

  /** The message of the first rule in `rules` that fails, or None when all pass. */
  function FirstViolation(rules: seq<Rule>): (r: Option<string>)
    ensures r.None? <==> forall i :: 0 <= i < |rules| ==> rules[i].passes
    ensures r.Some? ==> exists i :: 0 <= i < |rules| && !rules[i].passes && rules[i].message == r.value
  {
    if rules == [] then None
    else if !rules[0].passes then Some(rules[0].message)
    else
      var rest := FirstViolation(rules[1..]);
      assert forall i :: 1 <= i < |rules| ==> rules[i] == rules[1..][i - 1];
      rest
  }

  /** Precedence: when rule `k` fails and every earlier rule passes, the chain reports rule `k`. */
  lemma {:induction false} Precedence(rules: seq<Rule>, k: nat)
    requires k < |rules| && !rules[k].passes
    requires forall i :: 0 <= i < k ==> rules[i].passes
    ensures FirstViolation(rules) == Some(rules[k].message)
  {
    if k > 0 {
      assert rules[0].passes;
      Precedence(rules[1..], k - 1);
    }
  }

  /**
   * JavaScript's `s.length`: the number of UTF-16 code units, so a character
   * outside the Basic Multilingual Plane counts twice.
   */
  function Utf16Length(s: string): (n: nat)
    ensures |s| <= n <= 2 * |s|
    ensures n == 0 <==> s == []
    ensures (forall i :: 0 <= i < |s| ==> s[i] as int <= 0xFFFF) ==> n == |s|
  {
    if s == [] then 0 else (if s[0] as int > 0xFFFF then 2 else 1) + Utf16Length(s[1..])
  }
}
