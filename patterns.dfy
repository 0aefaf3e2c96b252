/** The fragments of ECMAScript regular expressions that the validators use, read as
    predicates over the input: bracket classes, the unanchored `test` of one class,
    the lookahead `(?=.*[k])` and the tail `.{n,}$`. Each is paired with a direct
    statement of what it accepts. */
module Patterns {
  import opened Text

  /** The bracket classes that occur in the source's patterns. */
  datatype CharClass =
    | Upper     // [A-Z]
    | Lower     // [a-z]
    | Digit     // \d, which without the u flag is [0-9]
    | NonAlnum  // [^0-9a-zA-Z]
    | Special   // [!@#$%^&*()_+\-=\[\]{};':"\\|,.<>\/?]

  /** The members of the `Special` class, one per character. */
  const SpecialChars: set<char> := {
    '!', '@', '#', '$', '%', '^', '&', '*', '(', ')', '_', '+', '-', '=',
    '[', ']', '{', '}', ';', '\'', ':', '\"', '\\', '|', ',', '.', '<', '>', '/', '?'}

  predicate InClass(c: char, k: CharClass) {
    match k
    case Upper => IsAsciiUpper(c)
    case Lower => IsAsciiLower(c)
    case Digit => IsAsciiDigit(c)
    case NonAlnum => !IsAsciiAlnum(c)
    case Special => c in SpecialChars
  }

  /** Some character of `s` belongs to `k`. */
  predicate Occurs(s: string, k: CharClass) {
    exists i :: 0 <= i < |s| && InClass(s[i], k)
  }

  predicate NoLineTerminator(s: string) {
    forall i :: 0 <= i < |s| ==> !IsLineTerminator(s[i])
  }

  /** `/[k]/.test(s)`: the class is tried at every position from the left. */
  predicate Test(s: string, k: CharClass) {
    s != [] && (InClass(s[0], k) || Test(s[1..], k))
  }

  /** `(?=.*[k])` at the start of `s`: a run of characters other than line
      terminators, then one character of `k`. */
  predicate LookaheadFinds(s: string, k: CharClass) {
    s != [] && (InClass(s[0], k) || (!IsLineTerminator(s[0]) && LookaheadFinds(s[1..], k)))
  }

  /** `.{n,}$` at the start of `s`: at least `n` characters other than line
      terminators and then the end of the input. */
  predicate DotsToEnd(s: string, n: nat) {
    if s == [] then n == 0
    else !IsLineTerminator(s[0]) && DotsToEnd(s[1..], if n == 0 then 0 else n - 1)
  }

  lemma {:induction false} TestIffOccurs(s: string, k: CharClass)
    ensures Test(s, k) <==> Occurs(s, k)
  {
    if s != [] {
      TestIffOccurs(s[1..], k);
      if Occurs(s, k) && !InClass(s[0], k) {
        var i :| 0 <= i < |s| && InClass(s[i], k);
        assert s[1..][i - 1] == s[i];
      }
      if Occurs(s[1..], k) {
        var i :| 0 <= i < |s[1..]| && InClass(s[1..][i], k);
        assert s[i + 1] == s[1..][i];
      }
    }
  }

  /** A lookahead that succeeds found a character of its class; with no line
      terminator in the input, finding one is also enough. */
  lemma {:induction false} LookaheadIffOccurs(s: string, k: CharClass)
    ensures LookaheadFinds(s, k) ==> Occurs(s, k)
    ensures NoLineTerminator(s) ==> (LookaheadFinds(s, k) <==> Occurs(s, k))
  {
    if s != [] {
      LookaheadIffOccurs(s[1..], k);
      if NoLineTerminator(s) {
        assert NoLineTerminator(s[1..]) by {
          forall i | 0 <= i < |s[1..]| ensures !IsLineTerminator(s[1..][i]) {
            assert s[1..][i] == s[i + 1];
          }
        }
      }
      if Occurs(s, k) && !InClass(s[0], k) {
        var i :| 0 <= i < |s| && InClass(s[i], k);
        assert s[1..][i - 1] == s[i];
      }
      if Occurs(s[1..], k) {
        var i :| 0 <= i < |s[1..]| && InClass(s[1..][i], k);
        assert s[i + 1] == s[1..][i];
      }
    }
  }

  lemma {:induction false} DotsToEndIff(s: string, n: nat)
    ensures DotsToEnd(s, n) <==> NoLineTerminator(s) && |s| >= n
  {
    if s != [] {
      DotsToEndIff(s[1..], if n == 0 then 0 else n - 1);
      if NoLineTerminator(s) {
        forall i | 0 <= i < |s[1..]| ensures !IsLineTerminator(s[1..][i]) {
          assert s[1..][i] == s[i + 1];
        }
      }
      if !IsLineTerminator(s[0]) && NoLineTerminator(s[1..]) {
        forall i | 0 <= i < |s| ensures !IsLineTerminator(s[i]) {
          if i > 0 { assert s[i] == s[1..][i - 1]; }
        }
      }
    }
  }
}
