/**
 * `getTokenPayload` of src/lib/auth.js: cleans up a raw token the way the
 * source does (trim, one leading "Bearer ", last non-empty comma segment,
 * three dot-separated parts) and hands the candidate to the signature
 * verifier, turning every verification failure into `false`.
 *
 * The verifier itself (jsonwebtoken's `verify` with the jwks-rsa key lookup,
 * key cache and rate limit) is an oracle: a function from the candidate token
 * and the options object to the decoded claims, or None when it reports an
 * error.
 */
module Auth {
  import opened JsString

  /** The decoded token payload; every claim may be absent. */
  datatype Claims = Claims(
    domainId: Option<string>,         // domain_id
    avatarId: Option<string>,         // avatar_id
    avatarName: Option<string>,       // avatar_name
    domainName: Option<string>,       // domain_name
    role: Option<string>,             // role
    domainTags: Option<seq<string>>)  // domain_tags

  /** The options object handed to `jwt.verify`. */
  datatype VerifyOptions = VerifyOptions(clockTolerance: int)

  /** Seconds of clock skew `jwt.verify` is asked to tolerate on iat and exp. */
  const ClockTolerance: int := 60

  const Bearer: string := "Bearer "

  /** `jwt.verify` with the key lookup: Some(payload) on success, None on any error. */
  type Verifier = (string, VerifyOptions) -> Option<Claims>

  /** What the sanitising steps (before the `try`) make of the argument. */
  datatype Sanitised =
    | Missing                  // `!token`: absent or the empty string
    | Undefined                // the comma branch left no segment: `token` became `undefined`
    | Malformed(parts: nat)    // `token.split('.')` did not give three parts
    | Candidate(token: string) // handed to the verifier

  /** How the returned promise settles: with the payload, with `false`, or by throwing. */
  datatype TokenPayload = Verified(claims: Claims) | Rejected | Thrown

  /** How a route's authorisation checks end: the token's domain, an HTTP error, or an exception. */
  datatype Access = Granted(domainId: string) | Denied(status: int, message: string) | Crashed

  /** Trim, then strip one case-sensitive leading "Bearer " and trim again. */
  function StripBearer(token: string): (r: string)
    ensures Trimmed(r)
  {
    var t := Trim(token);
    if StartsWith(t, Bearer) then Trim(t[|Bearer|..]) else t
  }

  /** `xs.map((t) => t.trim())`. */
  function TrimEach(xs: seq<string>): seq<string> {
    seq(|xs|, i requires 0 <= i < |xs| => Trim(xs[i]))
  }

  /** `xs.filter((t) => t.length > 0)`. */
  function KeepNonEmpty(xs: seq<string>): (r: seq<string>)
    ensures forall i :: 0 <= i < |r| ==> r[i] != [] && r[i] in xs
    ensures (forall i :: 0 <= i < |xs| ==> xs[i] != []) ==> r == xs
    ensures (forall i :: 0 <= i < |xs| ==> xs[i] == []) ==> r == []
  {
    if xs == [] then []
    else (if xs[0] == [] then [] else [xs[0]]) + KeepNonEmpty(xs[1..])
  }

  /** The filter drops no non-empty element. */
  lemma {:induction false} KeepsEveryNonEmpty(xs: seq<string>)
    ensures forall i :: 0 <= i < |xs| && xs[i] != [] ==> xs[i] in KeepNonEmpty(xs)
  {
    if xs != [] {
      KeepsEveryNonEmpty(xs[1..]);
      forall i | 0 < i < |xs| && xs[i] != [] ensures xs[i] in KeepNonEmpty(xs) {
        assert xs[i] == xs[1..][i - 1];
      }
    }
  }

  /**
   * The filter keeps order at the end: its last element is the last non-empty
   * element of the input, with only empty elements after it.
   */
  lemma {:induction false} LastKept(xs: seq<string>) returns (j: nat)
    requires KeepNonEmpty(xs) != []
    ensures j < |xs| && xs[j] != []
    ensures KeepNonEmpty(xs)[|KeepNonEmpty(xs)| - 1] == xs[j]
    ensures forall k :: j < k < |xs| ==> xs[k] == []
  {
    var rest := KeepNonEmpty(xs[1..]);
    if rest != [] {
      var j' := LastKept(xs[1..]);
      j := j' + 1;
      forall k | j < k < |xs| ensures xs[k] == [] {
        assert xs[k] == xs[1..][k - 1];
      }
    } else {
      j := 0;
      KeepsEveryNonEmpty(xs[1..]);
      forall k | 0 < k < |xs| ensures xs[k] == [] {
        assert xs[k] == xs[1..][k - 1];
      }
    }
  }

  /** The non-empty trimmed comma segments of `token`. */
  function CommaSegments(token: string): seq<string> {
    KeepNonEmpty(TrimEach(Split(token, ',')))
  }

  /** A token as the comma branch can leave it: non-empty, trimmed, comma-free. */
  predicate Piece(x: string) {
    x != [] && Trimmed(x) && ',' !in x
  }

  lemma SegmentsArePieces(token: string)
    ensures forall i :: 0 <= i < |CommaSegments(token)| ==> Piece(CommaSegments(token)[i])
  {
    var parts := Split(token, ',');
    var trimmed := TrimEach(parts);
    var segs := CommaSegments(token);
    forall i | 0 <= i < |segs| ensures Piece(segs[i]) {
      var x := segs[i];
      assert x in trimmed;
      var j :| 0 <= j < |trimmed| && trimmed[j] == x;
      assert x == Trim(parts[j]);
      if ',' in x {
        TrimChars(parts[j], ',');
        assert false;
      }
    }
  }

  /** Lines 41-44: a token with a comma becomes its last non-empty trimmed segment. */
  function LastCommaSegment(token: string): (r: Option<string>)
    ensures ',' !in token ==> r == Some(token)
    ensures r.None? <==> ',' in token && CommaSegments(token) == []
    ensures r.Some? && ',' in token ==>
      Piece(r.value) && r.value == CommaSegments(token)[|CommaSegments(token)| - 1]
  {
    if ',' in token then
      var segs := CommaSegments(token);
      SegmentsArePieces(token);
      if segs == [] then None else Some(segs[|segs| - 1])
    else Some(token)
  }

  /**
   * Line 43: the kept segment is the trimmed `j`-th comma part, where `j` is the
   * last part that does not trim to the empty string.
   */
  lemma LastSegmentIsLastNonBlank(token: string) returns (j: nat)
    requires ',' in token && LastCommaSegment(token).Some?
    ensures j < |Split(token, ',')|
    ensures LastCommaSegment(token) == Some(Trim(Split(token, ',')[j])) && Trim(Split(token, ',')[j]) != []
    ensures forall k :: j < k < |Split(token, ',')| ==> Trim(Split(token, ',')[k]) == []
  {
    var parts := Split(token, ',');
    var trimmed := TrimEach(parts);
    j := LastKept(trimmed);
    forall k | j < k < |parts| ensures Trim(parts[k]) == [] {
      assert trimmed[k] == Trim(parts[k]);
    }
  }

  /** Every part trims to the empty string. */
  predicate AllBlank(parts: seq<string>) {
    forall k :: 0 <= k < |parts| ==> Trim(parts[k]) == []
  }

  /** Line 43: there is no segment exactly when every comma part trims to the empty string. */
  lemma NoSegmentWhenAllBlank(token: string)
    requires ',' in token
    ensures LastCommaSegment(token).None? <==> AllBlank(Split(token, ','))
  {
    var parts := Split(token, ',');
    assert LastCommaSegment(token).None? <==> KeepNonEmpty(TrimEach(parts)) == [];
    AllTrimBlank(parts);
  }

  /** Every element trims to empty exactly when the trimmed filter keeps nothing. */
  lemma AllTrimBlank(parts: seq<string>)
    ensures AllBlank(parts) <==> KeepNonEmpty(TrimEach(parts)) == []
  {
    var trimmed := TrimEach(parts);
    NothingKept(trimmed);
    forall k | 0 <= k < |parts| ensures trimmed[k] == Trim(parts[k]) {
    }
  }

  /** The filter keeps nothing exactly when every element is empty. */
  lemma NothingKept(xs: seq<string>)
    ensures KeepNonEmpty(xs) == [] <==> forall k :: 0 <= k < |xs| ==> xs[k] == []
  {
    KeepsEveryNonEmpty(xs);
  }

  /** Lines 41-53: the comma branch and the three-part test on the stripped token. */
  function Shape(stripped: string): Sanitised {
    match LastCommaSegment(stripped)
    case None => Undefined
    case Some(t) =>
      var parts := |Split(t, '.')|;
      if parts != 3 then Malformed(parts) else Candidate(t)
  }

  /** Lines 29-53: every step before the call to the verifier. */
  function Sanitise(token: Option<string>): Sanitised {
    if !Truthy(token) then Missing else Shape(StripBearer(token.value))
  }

  /** `getTokenPayload(token)`: lines 28-99 without the logging. */
  function GetTokenPayload(token: Option<string>, verify: Verifier): TokenPayload {
    match Sanitise(token)
    case Missing => Rejected
    case Malformed(_) => Rejected
    case Undefined => Thrown
    case Candidate(t) =>
      match verify(t, VerifyOptions(ClockTolerance))
      case None => Rejected
      case Some(claims) => Verified(claims)
  }

  // ---------------------------------------------------------------------
  // Properties of the sanitiser and of the verification wrapper

  /** An absent or empty token yields `false` whatever the verifier would say. */
  lemma MissingTokenRejected(token: Option<string>, verify: Verifier)
    requires !Truthy(token)
    ensures Sanitise(token) == Missing
    ensures GetTokenPayload(token, verify) == Rejected
  {
  }

  /** The verifier decides only for a candidate: otherwise any two verifiers agree. */
  lemma VerifierOnlyForCandidate(token: Option<string>, v1: Verifier, v2: Verifier)
    requires !Sanitise(token).Candidate?
    ensures GetTokenPayload(token, v1) == GetTokenPayload(token, v2)
    ensures GetTokenPayload(token, v1) == (if Sanitise(token).Undefined? then Thrown else Rejected)
  {
  }

  /** The verifier is consulted only with a 60-second clock tolerance. */
  lemma OnlyToleranceSixtyMatters(token: Option<string>, v1: Verifier, v2: Verifier)
    requires forall t :: v1(t, VerifyOptions(60)) == v2(t, VerifyOptions(60))
    ensures GetTokenPayload(token, v1) == GetTokenPayload(token, v2)
  {
  }

  /** Failures of the verifier become `false`; success hands its payload back unchanged. */
  lemma VerifierOutcome(token: Option<string>, verify: Verifier)
    requires Sanitise(token).Candidate?
    ensures verify(Sanitise(token).token, VerifyOptions(ClockTolerance)).None? ==>
      GetTokenPayload(token, verify) == Rejected
    ensures forall claims :: verify(Sanitise(token).token, VerifyOptions(ClockTolerance)) == Some(claims) <==>
      GetTokenPayload(token, verify) == Verified(claims)
  {
  }

  /** Only the undefined-segment case escapes as an exception. */
  lemma ThrowsOnlyWhenUndefined(token: Option<string>, verify: Verifier)
    ensures GetTokenPayload(token, verify) == Thrown <==> Sanitise(token) == Undefined
  {
  }

  /** getTokenPayload trims first: trimming the argument beforehand changes nothing. */
  lemma TrimmedTokenSame(t: string, verify: Verifier)
    ensures GetTokenPayload(Some(Trim(t)), verify) == GetTokenPayload(Some(t), verify)
  {
    if Trim(t) != [] {
      assert StripBearer(Trim(t)) == StripBearer(t) by {
        TrimIdempotent(t);
      }
    } else if t != [] {
      assert Sanitise(Some(t)) == Malformed(1) by {
        assert StripBearer(t) == [];
        SplitWithoutSep([], '.');
      }
    }
  }

  /** "Bearer " in front of a token with content is removed once, and only once. */
  lemma BearerStrippedOnce(t: string)
    requires Trim(t) != []
    ensures StripBearer(Bearer + t) == Trim(t)
  {
    assert Bearer[0] == 'B';
    TrimAfterPrefix(Bearer, t);
  }

  /** `"Bearer " + t` and `t` settle the same way unless `t` itself starts with "Bearer ". */
  lemma BearerPrefixIgnored(t: string, verify: Verifier)
    requires !StartsWith(Trim(t), Bearer)
    ensures GetTokenPayload(Some(Bearer + t), verify) == GetTokenPayload(Some(t), verify)
  {
    if Trim(t) != [] {
      BearerBeforeContent(t);
    } else {
      BearerBeforeBlank(t);
    }
  }

  lemma BearerBeforeContent(t: string)
    requires Trim(t) != [] && !StartsWith(Trim(t), Bearer)
    ensures Sanitise(Some(Bearer + t)) == Sanitise(Some(t))
  {
    BearerStrippedOnce(t);
    assert StripBearer(t) == Trim(t);
    assert t != [];
  }

  /** `"Bearer "` before a blank string and the blank string itself are both rejected. */
  lemma BearerBeforeBlank(t: string)
    requires Trim(t) == []
    ensures Sanitise(Some(Bearer + t)) == Malformed(1)
    ensures Sanitise(Some(t)) == Missing || Sanitise(Some(t)) == Malformed(1)
  {
    BearerAlone(t);
    if t != [] {
      assert StripBearer(t) == [];
      SplitWithoutSep([], '.');
    }
  }

  /** "Bearer " followed only by whitespace trims to "Bearer", which has one part. */
  lemma BearerAlone(t: string)
    requires AllWhitespace(t)
    ensures Sanitise(Some(Bearer + t)) == Malformed(1)
  {
    BearerThenBlank(t);
    WordHasOnePart();
  }

  /** `"Bearer " + t` with `t` blank cleans up to the bare word. */
  lemma BearerThenBlank(t: string)
    requires AllWhitespace(t)
    ensures StripBearer(Bearer + t) == "Bearer"
  {
    var word := "Bearer";
    var pad := " " + t;
    assert AllWhitespace(pad) by {
      forall i | 0 <= i < |pad| ensures IsWhitespace(pad[i]) {
        if i > 0 { assert pad[i] == t[i - 1]; }
      }
    }
    assert Trimmed(word) by {
      assert word[0] == 'B' && word[|word| - 1] == 'r';
    }
    assert Bearer + t == [] + word + pad;
    TrimOfPadded([], word, pad);
  }

  /** The bare word has no comma and one dot-separated part. */
  lemma WordHasOnePart()
    ensures Shape("Bearer") == Malformed(1)
  {
    var word := "Bearer";
    assert ',' !in word && '.' !in word by {
      forall i | 0 <= i < |word| ensures word[i] != ',' && word[i] != '.' {
      }
    }
    SplitWithoutSep(word, '.');
  }

  /** The prefix is case-sensitive: "bearer " is left in place. */
  lemma LowerCaseBearerKept()
    ensures StripBearer("bearer a.b.c") == "bearer a.b.c"
  {
    var s := "bearer a.b.c";
    assert s[0] == 'b' && s[|s| - 1] == 'c';
    TrimOfTrimmed(s);
    assert s[..|Bearer|] != Bearer by {
      assert s[..|Bearer|][0] != Bearer[0];
    }
  }

  /** Every candidate is trimmed, has no comma and has exactly two dots. */
  lemma CandidateShape(token: Option<string>, c: string)
    requires Sanitise(token) == Candidate(c)
    ensures Trimmed(c) && ',' !in c
    ensures Count(c, '.') == 2
  {
    SplitLength(c, '.');
  }

  /** From a comma-joined list of clean tokens the verifier sees only the last. */
  lemma {:induction false} CommaJoinedKeepsLast(tokens: seq<string>)
    requires |tokens| >= 1
    requires forall i :: 0 <= i < |tokens| ==> Piece(tokens[i])
    ensures LastCommaSegment(Join(tokens, ',')) == Some(tokens[|tokens| - 1])
  {
    JoinContainsSep(tokens, ',');
    if |tokens| >= 2 {
      var joined := Join(tokens, ',');
      SplitJoin(tokens, ',');
      forall i | 0 <= i < |tokens| ensures Trim(tokens[i]) == tokens[i] {
        TrimOfTrimmed(tokens[i]);
      }
      assert TrimEach(tokens) == tokens;
      assert CommaSegments(joined) == tokens;
    }
  }

  /** A token made only of commas and whitespace leaves no segment, so the call throws. */
  lemma OnlyCommasThrows(s: string, verify: Verifier)
    requires ',' in s
    requires forall i :: 0 <= i < |s| ==> s[i] == ',' || IsWhitespace(s[i])
    ensures Sanitise(Some(s)) == Undefined
    ensures GetTokenPayload(Some(s), verify) == Thrown
  {
    var m := CommasTrimmed(s);
    OnlyBlankSegments(m);
    assert LastCommaSegment(m) == None;
  }

  /** Cleaning up a string of commas and whitespace leaves commas and whitespace, at least one comma. */
  lemma CommasTrimmed(s: string) returns (m: string)
    requires ',' in s
    requires forall i :: 0 <= i < |s| ==> s[i] == ',' || IsWhitespace(s[i])
    ensures m == StripBearer(s) && ',' in m
    ensures forall c :: c in m ==> c == ',' || IsWhitespace(c)
  {
    m := Trim(s);
    TrimOfCommas(s);
    assert m[0] in m;
    assert !StartsWith(m, Bearer) by {
      assert m[0] != Bearer[0];
    }
  }

  lemma TrimOfCommas(s: string)
    requires ',' in s
    requires forall i :: 0 <= i < |s| ==> s[i] == ',' || IsWhitespace(s[i])
    ensures ',' in Trim(s)
    ensures forall c :: c in Trim(s) ==> c == ',' || IsWhitespace(c)
  {
    TrimKeeps(s, ',');
    forall c | c in Trim(s) ensures c == ',' || IsWhitespace(c) {
      TrimChars(s, c);
    }
  }

  /** A string of commas and whitespace has no non-empty trimmed comma segment. */
  lemma OnlyBlankSegments(m: string)
    requires forall c :: c in m ==> c == ',' || IsWhitespace(c)
    ensures CommaSegments(m) == []
  {
    var parts := Split(m, ',');
    forall i | 0 <= i < |parts| ensures Trim(parts[i]) == [] {
      forall j | 0 <= j < |parts[i]| ensures IsWhitespace(parts[i][j]) {
        SplitChars(m, ',', i, parts[i][j]);
      }
    }
  }

  /** The three-part test counts empty parts: "a..b" reaches the verifier. */
  lemma EmptyPartsCount()
    ensures Sanitise(Some("a..b")) == Candidate("a..b")
  {
    var s := "a..b";
    assert StripBearer(s) == s by {
      assert Trimmed(s) by {
        assert s[0] == 'a' && s[|s| - 1] == 'b';
      }
      TrimOfTrimmed(s);
    }
    assert ',' !in s by {
      forall i | 0 <= i < |s| ensures s[i] != ',' {
      }
    }
    assert |Split(s, '.')| == 3 by {
      SplitJoin(["a", "", "b"], '.');
      assert Join(["a", "", "b"], '.') == s;
    }
  }
}
