/** `PasswordStrengthHint`: five independent rule checks on the typed password and the
    list that marks each rule met or not. Its "special" rule is any character outside
    [0-9a-zA-Z], which is a different set from the shared password rule's specials. */
module PasswordHint {
  import opened Options
  import opened Text
  import opened Patterns
  import Credentials

  datatype RuleStatus = RuleStatus(
    hasUppercase: bool,
    hasLowercase: bool,
    hasNumber: bool,
    hasSpecial: bool,
    hasMinLength: bool)

  /** The five checks, or nothing at all for an empty password (the hint renders null). */
  function Evaluate(p: string): (r: Option<RuleStatus>)
    ensures r.None? <==> p == []
    ensures r.Some? ==> r.value == RuleStatus(
      Occurs(p, Upper), Occurs(p, Lower), Occurs(p, Digit), Occurs(p, NonAlnum), |p| >= 8)
  {
    TestIffOccurs(p, Upper);
    TestIffOccurs(p, Lower);
    TestIffOccurs(p, Digit);
    TestIffOccurs(p, NonAlnum);
    if p == [] then None
    else Some(RuleStatus(Test(p, Upper), Test(p, Lower), Test(p, Digit), Test(p, NonAlnum), |p| >= 8))
  }

  /** One rendered list item: its class name and the text of its marker. */
  datatype RuleLine = RuleLine(className: string, marker: string, caption: string)

  function Line(met: bool, caption: string): RuleLine {
    RuleLine(
      "password-rule" + (if met then " password-rule--met" else ""),
      if met then "✓" else "",
      caption)
  }

  const Labels: seq<string> := [
    "Una letra mayúscula", "Una letra minúscula", "Un número",
    "Un carácter especial", "Mínimo 8 caracteres"]

  function Flags(s: RuleStatus): seq<bool> {
    [s.hasUppercase, s.hasLowercase, s.hasNumber, s.hasSpecial, s.hasMinLength]
  }

  /** The rendered hint: nothing for an empty password, otherwise the five items. */
  function Render(p: string): Option<seq<RuleLine>> {
    match Evaluate(p)
    case None => None
    case Some(s) =>
      Some([Line(s.hasUppercase, Labels[0]), Line(s.hasLowercase, Labels[1]),
            Line(s.hasNumber, Labels[2]), Line(s.hasSpecial, Labels[3]),
            Line(s.hasMinLength, Labels[4])])
  }

  /** Item `i` of the rendered list is determined by rule `i` alone: it is the line
      for rule `i`'s flag and label, whatever the other rules say. */
  lemma RenderMarksOwnRule(p: string, i: nat)
    requires p != [] && i < 5
    ensures Render(p).Some? && |Render(p).value| == 5
    ensures Render(p).value[i] == Line(Flags(Evaluate(p).value)[i], Labels[i])
  {
  }

  /** A line shows the check mark and the "met" class exactly when its rule is met. */
  lemma LineShowsMet(met: bool, caption: string)
    ensures Line(met, caption).marker == "✓" <==> met
    ensures |Line(met, caption).className| > |"password-rule"| <==> met
  {
    if !met {
      assert "" != "✓" by { assert |""| != |"✓"|; }
    }
  }

  /** Every password the shared rule accepts meets the hint's uppercase, special and
      length rules (the shared specials are all outside [0-9a-zA-Z]). */
  lemma StrongMeetsHintRules(p: string)
    requires Credentials.StrongPassword(p)
    ensures Evaluate(p).Some?
    ensures var s := Evaluate(p).value; s.hasUppercase && s.hasSpecial && s.hasMinLength
  {
    var i :| 0 <= i < |p| && InClass(p[i], Special);
    assert p[i] in SpecialChars;
    assert InClass(p[i], NonAlnum);
  }

  /** The hint can show all five rules met for a password the shared rule rejects:
      `~` is outside [0-9a-zA-Z] but not one of the listed specials. */
  lemma AllMetYetRejected()
    ensures Evaluate("Abcdefg1~") == Some(RuleStatus(true, true, true, true, true))
    ensures !Credentials.StrongPassword("Abcdefg1~")
  {
    var p := "Abcdefg1~";
    assert InClass(p[0], Upper) && InClass(p[1], Lower) && InClass(p[7], Digit) && InClass(p[8], NonAlnum);
    assert forall i :: 0 <= i < |p| ==> !InClass(p[i], Special);
  }
}
