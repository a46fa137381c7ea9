/**
  The master- and agent-pool name validators. Both compile the anchored
  pattern `^[a-z]{1}[a-z0-9]{0,11}$` and report one error when a name does
  not match it. The pattern is modelled as a sequence of bounded repetitions
  of character classes, matched with backtracking as a regular-expression
  engine would, and proved equal to a plain description of valid names.
 */
module PoolNames {

  /** A bracket expression such as `[a-z0-9]`: a list of inclusive ranges. */
  datatype CharClass = CharClass(ranges: seq<(char, char)>)

  /** One pattern piece: a class repeated `{min,max}` times. */
  datatype Piece = Piece(cls: CharClass, min: nat, max: nat)

  predicate InClass(c: char, cls: CharClass)
    decreases |cls.ranges|
  {
    if cls.ranges == [] then false
    else
      (cls.ranges[0].0 <= c <= cls.ranges[0].1)
      || InClass(c, CharClass(cls.ranges[1..]))
  }

  /** Whole-string (anchored) match of a sequence of pieces. */
  predicate MatchPieces(ps: seq<Piece>, s: string)
    decreases |ps|, |s|, 1
  {
    if ps == [] then s == []
    else MatchPiece(ps[0], 0, ps[1..], s)
  }

  /**
    `p` has already matched `n` times; either stop repeating (allowed once
    `n` reaches `p.min`) and match the rest, or consume one more character.
   */
  predicate MatchPiece(p: Piece, n: nat, rest: seq<Piece>, s: string)
    decreases |rest| + 1, |s|, 0
  {
    (n >= p.min && MatchPieces(rest, s))
    || (n < p.max && |s| > 0 && InClass(s[0], p.cls) && MatchPiece(p, n + 1, rest, s[1..]))
  }

  const LowerClass: CharClass := CharClass([('a', 'z')])
  const LowerDigitClass: CharClass := CharClass([('a', 'z'), ('0', '9')])

  /** `^[a-z]{1}[a-z0-9]{0,11}$` */
  const PoolNamePattern: seq<Piece> := [Piece(LowerClass, 1, 1), Piece(LowerDigitClass, 0, 11)]

  predicate IsLower(c: char) {
    'a' <= c <= 'z'
  }

  predicate IsLowerOrDigit(c: char) {
    IsLower(c) || '0' <= c <= '9'
  }

  /** A valid pool name: 1 to 12 characters, a lowercase letter first, only `a-z0-9`. */
  predicate ValidPoolName(s: string) {
    && 1 <= |s| <= 12
    && IsLower(s[0])
    && forall i | 0 <= i < |s| :: IsLowerOrDigit(s[i])
  }

  lemma ClassMembership(c: char)
    ensures InClass(c, LowerClass) <==> IsLower(c)
    ensures InClass(c, LowerDigitClass) <==> IsLowerOrDigit(c)
  {
  }

  /** The trailing `[a-z0-9]{0,11}` piece, after `n` repetitions, matches exactly the short all-alphanumeric tails. */
  lemma {:induction false} TailPieceMatches(n: nat, s: string)
    requires n <= 11
    ensures MatchPiece(Piece(LowerDigitClass, 0, 11), n, [], s)
        <==> n + |s| <= 11 && forall i | 0 <= i < |s| :: IsLowerOrDigit(s[i])
    decreases |s|
  {
    var p := Piece(LowerDigitClass, 0, 11);
    if |s| == 0 {
      assert MatchPieces([], s);
    } else {
      ClassMembership(s[0]);
      assert !MatchPieces([], s);
      if n < 11 {
        TailPieceMatches(n + 1, s[1..]);
        if forall i | 0 <= i < |s| :: IsLowerOrDigit(s[i]) {
          assert forall i | 0 <= i < |s[1..]| :: IsLowerOrDigit(s[1..][i]) by {
            forall i | 0 <= i < |s[1..]| ensures IsLowerOrDigit(s[1..][i]) {
              assert s[1..][i] == s[i + 1];
            }
          }
        }
        if IsLowerOrDigit(s[0]) && forall i | 0 <= i < |s[1..]| :: IsLowerOrDigit(s[1..][i]) {
          forall i | 0 <= i < |s| ensures IsLowerOrDigit(s[i]) {
            if i > 0 {
              assert s[i] == s[1..][i - 1];
            }
          }
        }
      }
    }
  }

  /** The regular expression accepts exactly the valid pool names. */
  lemma {:induction false} PatternMatchesValidNames(s: string)
    ensures MatchPieces(PoolNamePattern, s) <==> ValidPoolName(s)
  {
    var first := Piece(LowerClass, 1, 1);
    var tail := Piece(LowerDigitClass, 0, 11);
    assert PoolNamePattern[0] == first;
    assert PoolNamePattern[1..] == [tail];
    assert [tail][1..] == [];
    if |s| == 0 {
      assert !MatchPiece(first, 0, [tail], s);
    } else {
      ClassMembership(s[0]);
      TailPieceMatches(0, s[1..]);
      assert MatchPiece(first, 1, [tail], s[1..]) == MatchPieces([tail], s[1..]);
      assert MatchPieces([tail], s[1..]) == MatchPiece(tail, 0, [], s[1..]);
      assert MatchPieces(PoolNamePattern, s) == (InClass(s[0], LowerClass) && MatchPiece(first, 1, [tail], s[1..]));
      if ValidPoolName(s) {
        forall i | 0 <= i < |s[1..]| ensures IsLowerOrDigit(s[1..][i]) {
          assert s[1..][i] == s[i + 1];
        }
      }
      if MatchPieces(PoolNamePattern, s) {
        forall i | 0 <= i < |s| ensures IsLowerOrDigit(s[i]) {
          if i > 0 {
            assert s[i] == s[1..][i - 1];
          }
        }
      }
    }
  }

  /** The error a validator reports: the key being validated and the rejected value. */
  datatype ValidationError = InvalidPoolName(key: string, got: string)

  /** A Terraform validation function's `(warnings, errors)` pair. */
  datatype Validation = Validation(warnings: seq<string>, errors: seq<ValidationError>)

  /** Shared body of both validators. */
  function ValidatePoolName(name: string, key: string): (r: Validation)
    ensures r.warnings == []
    ensures |r.errors| <= 1
    ensures r.errors == [] <==> ValidPoolName(name)
    ensures r.errors != [] ==> r.errors[0] == InvalidPoolName(key, name)
  {
    PatternMatchesValidNames(name);
    if !MatchPieces(PoolNamePattern, name) then Validation([], [InvalidPoolName(key, name)])
    else Validation([], [])
  }

  function OpenShiftMasterPoolName(name: string, key: string): (r: Validation)
    ensures r.warnings == []
    ensures |r.errors| <= 1
    ensures r.errors == [] <==> ValidPoolName(name)
    ensures r.errors != [] ==> r.errors[0] == InvalidPoolName(key, name)
  {
    ValidatePoolName(name, key)
  }

  function OpenShiftAgentPoolName(name: string, key: string): (r: Validation)
    ensures r.warnings == []
    ensures |r.errors| <= 1
    ensures r.errors == [] <==> ValidPoolName(name)
    ensures r.errors != [] ==> r.errors[0] == InvalidPoolName(key, name)
  {
    ValidatePoolName(name, key)
  }

  /** The two validators agree on every input. */
  lemma MasterAndAgentAgree(name: string, key: string)
    ensures OpenShiftMasterPoolName(name, key) == OpenShiftAgentPoolName(name, key)
  {
  }

  lemma EmptyNameRejected(key: string)
    ensures OpenShiftAgentPoolName("", key).errors == [InvalidPoolName(key, "")]
  {
  }

  lemma LongNameRejected(name: string, key: string)
    requires |name| >= 13
    ensures OpenShiftAgentPoolName(name, key).errors == [InvalidPoolName(key, name)]
  {
  }

  lemma TwelveCharNameAccepted(key: string)
    ensures OpenShiftAgentPoolName("abcdefghij01", key).errors == []
  {
    var s := "abcdefghij01";
    assert forall i | 0 <= i < |s| :: IsLowerOrDigit(s[i]);
  }

  lemma LeadingDigitRejected(name: string, key: string)
    requires |name| >= 1 && '0' <= name[0] <= '9'
    ensures OpenShiftAgentPoolName(name, key).errors == [InvalidPoolName(key, name)]
  {
  }

  /** An uppercase letter, `-`, `_` or any other non-`[a-z0-9]` character anywhere rejects the name. */
  lemma ForeignCharacterRejected(name: string, key: string, i: nat)
    requires i < |name| && !IsLowerOrDigit(name[i])
    ensures OpenShiftAgentPoolName(name, key).errors == [InvalidPoolName(key, name)]
    ensures OpenShiftMasterPoolName(name, key).errors == [InvalidPoolName(key, name)]
  {
  }
}
