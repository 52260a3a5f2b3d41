/** The text form of proof hashes. `Lower` is Python's `str.lower` on ASCII strings. */
module ProofHash {
  import opened Text
  import opened Schemas

  const PREFIX := POINTER_PREFIX

  predicate StartsWith(s: string, p: string)
  {
    |p| <= |s| && s[..|p|] == p
  }

  function NormalizeKarmaProofHash(proofHash: string): string
  {
    var s := Strip(proofHash);
    if !StartsWith(s, PREFIX) then s else s[..|PREFIX|] + Lower(s[|PREFIX|..])
  }

  /** The pattern `^karma-ta:v1/sha256/[0-9a-f]{64}$`, matched in full. */
  predicate MatchesPattern(s: string)
  {
    StartsWith(s, PREFIX) && IsHex64(s[|PREFIX|..])
  }

  predicate IsCanonicalKarmaProofHash(proofHash: string)
  {
    MatchesPattern(NormalizeKarmaProofHash(proofHash))
  }

  predicate IsHexAnyCase(c: char)
  {
    '0' <= c <= '9' || 'a' <= c <= 'f' || 'A' <= c <= 'F'
  }

  datatype Verdict =
    | Whitespace
    | RawBytes32
    | NotKarma
    | WrongPrefix
    | HexMarkerOnTail
    | TailLength
    | TailNotHex
    | FailedAfterNormalization
    | Ok

  function ValidateForCreateBill(proofHash: string): Verdict
  {
    var s := Strip(proofHash);
    if s != proofHash then Whitespace
    else if StartsWith(s, "0x") && |s| == 66 then RawBytes32
    else if !StartsWith(s, "karma-ta:") then NotKarma
    else if !StartsWith(s, PREFIX) then WrongPrefix
    else
      var tail := s[|PREFIX|..];
      if StartsWith(tail, "0x") then HexMarkerOnTail
      else if |tail| != 64 then TailLength
      else if !forall i :: 0 <= i < |tail| ==> IsHexAnyCase(tail[i]) then TailNotHex
      else if !MatchesPattern(NormalizeKarmaProofHash(s)) then FailedAfterNormalization
      else Ok
  }

  /** `None` is the `ValueError`. */
  function AssertCanonicalKarmaProofHash(proofHash: string): Option<string>
  {
    if ValidateForCreateBill(proofHash) == Ok then Some(NormalizeKarmaProofHash(proofHash)) else None
  }

  lemma LowerChars(t: string)
    ensures (forall i :: 0 <= i < |t| ==> IsHexAnyCase(t[i])) <==>
            (forall i :: 0 <= i < |Lower(t)| ==> IsHexLower(Lower(t)[i]))
  {
    if !forall i :: 0 <= i < |t| ==> IsHexAnyCase(t[i]) {
      var i :| 0 <= i < |t| && !IsHexAnyCase(t[i]);
      assert !IsHexLower(Lower(t)[i]);
    }
  }

  lemma StripTwice(s: string)
    ensures Strip(Strip(s)) == Strip(s)
  {
    StripStripped(s);
    StripStripped(Strip(s));
  }

  lemma LowerSpace(t: string)
    requires t != []
    ensures IsSpace(Lower(t)[|t| - 1]) <==> IsSpace(t[|t| - 1])
  {}

  /** Lower-casing the digest leaves a stripped pointer stripped, so normalizing twice is normalizing once. */
  lemma NormalizeIdempotent(p: string)
    ensures NormalizeKarmaProofHash(NormalizeKarmaProofHash(p)) == NormalizeKarmaProofHash(p)
  {
    var s, n := Strip(p), NormalizeKarmaProofHash(p);
    StripTwice(p);
    if StartsWith(s, PREFIX) {
      var tail := s[|PREFIX|..];
      assert n[..|PREFIX|] == PREFIX && n[|PREFIX|..] == Lower(tail);
      StripStripped(p);
      assert Stripped(n) by {
        assert n[0] == s[0];
        if tail != [] {
          assert s[|s| - 1] == tail[|tail| - 1] && n[|n| - 1] == Lower(tail)[|tail| - 1];
          LowerSpace(tail);
        } else {
          assert n == s;
        }
      }
      StripStripped(n);
      LowerIdempotent(tail);
    }
  }

  lemma PatternOfStripped(s: string)
    requires Strip(s) == s && StartsWith(s, PREFIX)
    ensures MatchesPattern(NormalizeKarmaProofHash(s)) <==>
      |s[|PREFIX|..]| == 64 && forall i :: 0 <= i < |s[|PREFIX|..]| ==> IsHexAnyCase(s[|PREFIX|..][i])
  {
    var tail := s[|PREFIX|..];
    var n := NormalizeKarmaProofHash(s);
    assert n[..|PREFIX|] == PREFIX && n[|PREFIX|..] == Lower(tail);
    LowerChars(tail);
  }

  /** A string is canonical exactly when its stripped form validates. */
  lemma CanonicalIffStrippedValidates(p: string)
    ensures IsCanonicalKarmaProofHash(p) <==> ValidateForCreateBill(Strip(p)) == Ok
  {
    var s := Strip(p);
    StripTwice(p);
    assert NormalizeKarmaProofHash(s) == NormalizeKarmaProofHash(p);
    if StartsWith(s, PREFIX) {
      PatternOfStripped(s);
      PrefixStarts(s);
      var tail := s[|PREFIX|..];
      if StartsWith(tail, "0x") {
        assert tail[..2][1] == 'x';
        assert !IsHexAnyCase(tail[1]);
      }
    }
  }

  lemma PrefixStarts(s: string)
    requires StartsWith(s, PREFIX)
    ensures StartsWith(s, "karma-ta:") && !StartsWith(s, "0x")
  {
    assert PREFIX[..9] == "karma-ta:";
    assert s[..9] == s[..|PREFIX|][..9];
    assert s[0] == s[..|PREFIX|][0] == 'k';
    assert s[..2][0] == s[0] && "0x"[0] == '0';
  }

  /** The last failure, after normalization, is never given. */
  lemma NormalizationNeverFails(p: string)
    ensures ValidateForCreateBill(p) != FailedAfterNormalization
  {
    if Strip(p) == p && StartsWith(p, PREFIX) {
      PatternOfStripped(p);
    }
  }

  /** What `assert_canonical` returns is canonical text: a fixed point that matches the pattern. */
  lemma AssertedIsCanonical(p: string)
    requires AssertCanonicalKarmaProofHash(p).Some?
    ensures var n := AssertCanonicalKarmaProofHash(p).value;
      MatchesPattern(n) && NormalizeKarmaProofHash(n) == n && ValidateForCreateBill(n) == Ok
  {
    var n := NormalizeKarmaProofHash(p);
    NormalizeIdempotent(p);
    CanonicalIffStrippedValidates(p);
    CanonicalIffStrippedValidates(n);
    assert Strip(n) == n by {
      PointerStripped(n);
    }
  }

  lemma PointerStripped(n: string)
    requires MatchesPattern(n)
    ensures Strip(n) == n
  {
    assert n[0] == n[..|PREFIX|][0] == 'k';
    assert n[|n| - 1] == n[|PREFIX|..][63];
    StripStripped(n);
  }

  /** The pointer made from any digest of 64 hexadecimal characters validates and is its own
      normal form. */
  lemma PointerValidates(digest: string)
    requires IsHex64(digest)
    ensures ValidateForCreateBill(ProofHashPointer(digest)) == Ok
    ensures NormalizeKarmaProofHash(ProofHashPointer(digest)) == ProofHashPointer(digest)
  {
    var p := ProofHashPointer(digest);
    LowerOfHex(digest);
    assert p[..|PREFIX|] == PREFIX && p[|PREFIX|..] == digest;
    PointerStripped(p);
    assert NormalizeKarmaProofHash(p) == p;
    CanonicalIffStrippedValidates(p);
  }
}
