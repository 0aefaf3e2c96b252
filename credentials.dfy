/** The two credential rules the pages share: the password pattern
    `^(?=.*[A-Z])(?=.*[specials]).{8,}$` (reset_password, sign_in, sign_up,
    changePassword, profile) and the e-mail pattern `^[^\s@]+@[^\s@]+\.[^\s@]+$`
    (sign_in, sign_up). Each pattern is read token by token and proved equal to a
    direct statement of what it accepts. */
module Credentials {
  import opened Text
  import opened Patterns

  /** The password pattern as written: two lookaheads from the start, then `.{8,}$`. */
  predicate PasswordPattern(p: string) {
    LookaheadFinds(p, Upper) && LookaheadFinds(p, Special) && DotsToEnd(p, 8)
  }

  /** What the password rule demands: eight or more characters, none of them a line
      terminator, at least one of A-Z, at least one of the listed specials. */
  predicate StrongPassword(p: string) {
    && |p| >= 8
    && NoLineTerminator(p)
    && Occurs(p, Upper)
    && Occurs(p, Special)
  }

  /** `validarContrasena` / `validar`: the test of the shared password pattern. */
  function ValidarContrasena(p: string): (ok: bool)
    ensures ok <==> StrongPassword(p)
  {
    LookaheadIffOccurs(p, Upper);
    LookaheadIffOccurs(p, Special);
    DotsToEndIff(p, 8);
    PasswordPattern(p)
  }

  /** A character of a `[^\s@]` run. */
  predicate EmailChar(c: char) {
    !IsWhitespace(c) && c != '@'
  }

  predicate AllEmailChars(s: string) {
    forall i :: 0 <= i < |s| ==> EmailChar(s[i])
  }

  /** The e-mail pattern as written: a non-empty run, `@`, a non-empty run, `.`,
      a non-empty run, and nothing else. `a` and `d` are where the `@` and the `.`
      of the pattern matched. */
  predicate EmailPattern(e: string) {
    exists a, d | 0 < a && a + 1 < d && d + 1 < |e| ::
      && e[a] == '@' && e[d] == '.'
      && AllEmailChars(e[..a]) && AllEmailChars(e[a + 1..d]) && AllEmailChars(e[d + 1..])
  }

  /** Some `.` of the domain is neither its first nor its last character. */
  predicate HasInnerDot(domain: string) {
    exists j :: 0 < j < |domain| - 1 && domain[j] == '.'
  }

  /** What the e-mail rule demands: no white space, exactly one `@`, a non-empty
      local part before it, and a domain after it with an inner `.`. */
  predicate WellFormedEmail(e: string) {
    && (forall i :: 0 <= i < |e| ==> !IsWhitespace(e[i]))
    && CountChar(e, '@') == 1
    && PrefixBefore(e, '@') != []
    && HasInnerDot(SuffixAfter(e, '@'))
  }

  /** `validarEmail`, and the e-mail check of sign_up's onChange. */
  function ValidarEmail(e: string): (ok: bool)
    ensures ok <==> WellFormedEmail(e)
  {
    EmailPatternIffWellFormed(e);
    EmailPattern(e)
  }

  /** The count of `c` splits around any index. */
  lemma CountCharAround(e: string, a: nat, c: char)
    requires a < |e|
    ensures CountChar(e, c) == CountChar(e[..a], c) + CountChar([e[a]], c) + CountChar(e[a + 1..], c)
  {
    assert e == e[..a] + ([e[a]] + e[a + 1..]);
    CountCharAppend(e[..a], [e[a]] + e[a + 1..], c);
    CountCharAppend([e[a]], e[a + 1..], c);
  }

  /** A text with exactly one `@`, at index `a`, has no other. */
  lemma SingleAt(e: string, a: nat)
    requires a < |e| && e[a] == '@' && CountChar(e, '@') == 1
    ensures forall i :: 0 <= i < |e| && i != a ==> e[i] != '@'
  {
    CountCharAround(e, a, '@');
    assert CountChar([e[a]], '@') == 1;
    assert '@' !in e[..a] && '@' !in e[a + 1..];
    forall i | 0 <= i < |e| && i != a ensures e[i] != '@' {
      if i < a {
        assert e[i] == e[..a][i];
      } else {
        assert e[i] == e[a + 1..][i - a - 1];
      }
    }
  }

  /** A slice whose every character is an e-mail character. */
  lemma EmailCharsSlice(e: string, lo: nat, hi: nat)
    requires lo <= hi <= |e|
    requires forall i :: lo <= i < hi ==> EmailChar(e[i])
    ensures AllEmailChars(e[lo..hi])
  {
    forall i | 0 <= i < hi - lo ensures EmailChar(e[lo..hi][i]) {
      assert e[lo..hi][i] == e[lo + i];
    }
  }

  /** The three runs of a pattern match hold no white space and no `@`. */
  lemma PatternRunsClean(e: string, a: nat, d: nat)
    requires 0 < a && a + 1 < d && d + 1 < |e|
    requires e[d] == '.'
    requires AllEmailChars(e[..a]) && AllEmailChars(e[a + 1..d]) && AllEmailChars(e[d + 1..])
    ensures forall i :: 0 <= i < |e| && i != a ==> EmailChar(e[i])
  {
    forall i | 0 <= i < |e| && i != a ensures EmailChar(e[i]) {
      if i < a {
        assert e[i] == e[..a][i];
      } else if a < i < d {
        assert e[i] == e[a + 1..d][i - a - 1];
      } else if i > d {
        assert e[i] == e[d + 1..][i - d - 1];
      }
    }
  }

  /** With no `@` before index `a` or after it, the text has exactly one `@` and
      the part before it is `e[..a]`. */
  lemma OnlyAtSplits(e: string, a: nat)
    requires a < |e| && e[a] == '@'
    requires forall i :: 0 <= i < |e| && i != a ==> e[i] != '@'
    ensures CountChar(e, '@') == 1
    ensures PrefixBefore(e, '@') == e[..a]
  {
    var pre, rest := e[..a], e[a + 1..];
    assert '@' !in pre by {
      forall i | 0 <= i < a ensures pre[i] != '@' { assert pre[i] == e[i]; }
    }
    assert '@' !in rest by {
      forall i | 0 <= i < |rest| ensures rest[i] != '@' { assert rest[i] == e[a + 1 + i]; }
    }
    CountCharAround(e, a, '@');
    assert CountChar([e[a]], '@') == 1;
    assert e == pre + e[a..];
    PrefixBeforeAppend(pre, e[a..], '@');
  }

  lemma PatternGivesWellFormed(e: string, a: nat, d: nat)
    requires 0 < a && a + 1 < d && d + 1 < |e|
    requires e[a] == '@' && e[d] == '.'
    requires AllEmailChars(e[..a]) && AllEmailChars(e[a + 1..d]) && AllEmailChars(e[d + 1..])
    ensures WellFormedEmail(e)
  {
    PatternRunsClean(e, a, d);
    OnlyAtSplits(e, a);
    var dom := SuffixAfter(e, '@');
    assert dom == e[a + 1..];
    assert dom[d - a - 1] == e[d];
  }

  /** An `@` at `a` and a `.` at `d`, with e-mail characters everywhere else, are a
      match of the pattern. */
  lemma PatternAt(e: string, a: nat, d: nat)
    requires 0 < a && a + 1 < d && d + 1 < |e|
    requires e[a] == '@' && e[d] == '.'
    requires forall i :: 0 <= i < |e| && i != a ==> EmailChar(e[i])
    ensures EmailPattern(e)
  {
    EmailCharsSlice(e, 0, a);
    EmailCharsSlice(e, a + 1, d);
    EmailCharsSlice(e, d + 1, |e|);
    assert e[..a] == e[0..a] && e[d + 1..] == e[d + 1..|e|];
  }

  lemma WellFormedGivesPattern(e: string)
    requires WellFormedEmail(e)
    ensures EmailPattern(e)
  {
    var p := PrefixBefore(e, '@');
    var a := |p|;
    assert a < |e| && e[a] == '@' by {
      assert CountChar(e, '@') != 0;
    }
    SingleAt(e, a);
    var dom := SuffixAfter(e, '@');
    assert dom == e[a + 1..];
    var j :| 0 < j < |dom| - 1 && dom[j] == '.';
    assert e[a + 1 + j] == dom[j];
    assert forall i :: 0 <= i < |e| ==> !IsWhitespace(e[i]);
    PatternAt(e, a, a + 1 + j);
  }

  /** The e-mail pattern accepts exactly the well-formed addresses. */
  lemma EmailPatternIffWellFormed(e: string)
    ensures EmailPattern(e) <==> WellFormedEmail(e)
  {
    if EmailPattern(e) {
      var a, d :| 0 < a && a + 1 < d && d + 1 < |e|
        && e[a] == '@' && e[d] == '.'
        && AllEmailChars(e[..a]) && AllEmailChars(e[a + 1..d]) && AllEmailChars(e[d + 1..]);
      PatternGivesWellFormed(e, a, d);
    }
    if WellFormedEmail(e) {
      WellFormedGivesPattern(e);
    }
  }

  /** `.` does not match a line terminator, so a password containing one fails the
      rule whatever else it contains. */
  lemma LineTerminatorFails(p: string, k: nat)
    requires k < |p| && IsLineTerminator(p[k])
    ensures !ValidarContrasena(p)
  {
  }

  /** The backtick and the tilde are not among the specials. */
  lemma BacktickAndTildeNotSpecial()
    ensures !InClass('`', Special) && !InClass('~', Special)
  {
  }
}
