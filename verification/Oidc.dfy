/** Routing a bearer token to the issuer that can verify it. Signatures, key sets, clocks and JSON are behind
    `Jwt`, which stands for the token library at the time of one call. */
module Oidc {
  import opened StoreTypes

  type Keys = nat

  /** The claims that matter: an absent or non-string `iss` or `sub` is None; `aud` lists every audience. */
  datatype Claims = Claims(iss: Option<string>, sub: Option<string>, aud: seq<string>)

  datatype ParseResult = Parsed(valid: bool, claims: Option<Claims>) | Rejected

  /** `decode` reads the payload of a well-formed token without verifying it; `parse` verifies signature, issuer,
      expiry and, when given, audience. */
  datatype Jwt = Jwt(
    decode: string -> Option<Claims>,
    parse: (Keys, string, Option<string>, string) -> ParseResult)

  /** What the library promises: a parsed token is valid, carries the payload of the token, and its `iss` claim
      equals the expected issuer exactly, unless no issuer is expected; and when an audience is expected, it is one of
      the token's. */
  ghost predicate Faithful(j: Jwt) {
    && j.decode("") == None
    && forall k, iss, aud, tok :: j.parse(k, iss, aud, tok).Parsed? ==>
         && j.parse(k, iss, aud, tok).valid
         && j.decode(tok).Some?
         && j.parse(k, iss, aud, tok).claims == j.decode(tok)
         && (iss != "" ==> j.decode(tok).value.iss == Some(iss))
         && (aud.Some? ==> aud.value in j.decode(tok).value.aud)
  }

  datatype Issuer = Issuer(issuer: string, audiences: seq<string>, keys: Keys)

  function TrimSlashes(s: string): (t: string)
    ensures t <= s && (t == "" || t[|t| - 1] != '/')
    ensures s == "" || s[|s| - 1] != '/' ==> t == s
  {
    if s != "" && s[|s| - 1] == '/' then TrimSlashes(s[..|s| - 1]) else s
  }

  predicate IsSpace(c: char) {
    c == ' ' || c == '\t' || c == '\n' || c == '\r'
    || c == '\U{000B}' || c == '\U{000C}' || c == '\U{0085}' || c == '\U{00A0}'
    || c == '\U{1680}' || '\U{2000}' <= c <= '\U{200A}' || c == '\U{2028}' || c == '\U{2029}'
    || c == '\U{202F}' || c == '\U{205F}' || c == '\U{3000}'
  }

  function TrimSpace(s: string): string {
    if s != "" && IsSpace(s[0]) then TrimSpace(s[1..])
    else if s != "" && IsSpace(s[|s| - 1]) then TrimSpace(s[..|s| - 1])
    else s
  }

  function Normalise(raw: string): string {
    TrimSlashes(TrimSpace(raw))
  }

  /** Trimming removes spaces from both ends and nothing else. */
  lemma {:induction false} TrimSpaceTrims(s: string) returns (left: string, right: string)
    ensures s == left + TrimSpace(s) + right
    ensures forall c :: c in left || c in right ==> IsSpace(c)
    ensures var t := TrimSpace(s); t != "" ==> !IsSpace(t[0]) && !IsSpace(t[|t| - 1])
  {
    if s != "" && IsSpace(s[0]) {
      left, right := TrimSpaceTrims(s[1..]);
      left := [s[0]] + left;
      assert s == [s[0]] + s[1..];
    } else if s != "" && IsSpace(s[|s| - 1]) {
      left, right := TrimSpaceTrims(s[..|s| - 1]);
      right := right + [s[|s| - 1]];
      assert s == s[..|s| - 1] + [s[|s| - 1]];
    } else {
      left, right := "", "";
    }
  }

  /** Trimming slashes removes slashes from the end and nothing else. */
  lemma {:induction false} TrimSlashesTrims(s: string) returns (n: nat)
    ensures s == TrimSlashes(s) + seq(n, _ => '/')
  {
    if s != "" && s[|s| - 1] == '/' {
      n := TrimSlashesTrims(s[..|s| - 1]);
      assert s == s[..|s| - 1] + "/";
      assert seq(n + 1, _ => '/') == seq(n, _ => '/') + "/";
      n := n + 1;
    } else {
      n := 0;
    }
  }

  /** A configured issuer never starts with a space nor ends with a slash; it ends with a space only where one stood
      before trailing slashes, since slashes are trimmed last. */
  lemma NormalisedEnds(raw: string)
    requires UsableRaw(raw)
    ensures var t, n := TrimSpace(raw), Normalise(raw);
      && !IsSpace(n[0]) && n[|n| - 1] != '/'
      && (IsSpace(n[|n| - 1]) ==> |n| < |t| && t[|n|] == '/')
  {
    var left, right := TrimSpaceTrims(raw);
    var k := TrimSlashesTrims(TrimSpace(raw));
  }

  /** Such an input. */
  lemma SpaceBeforeSlash()
    ensures Normalise(" a /\n") == "a " && Normalise("\ta\r") == "a"
  {
    assert " a /\n"[1..] == "a /\n" && "a /\n"[..3] == "a /" && "a /"[..2] == "a ";
    assert TrimSpace("a /") == "a /";
    assert TrimSlashes("a /") == TrimSlashes("a ");
    assert "\ta\r"[1..] == "a\r" && "a\r"[..1] == "a";
  }

  predicate UsableRaw(raw: string) {
    Normalise(raw) != ""
  }

  /** The positions of the configured issuers that remain, in order; duplicates stay. */
  function UsableAt(raws: seq<string>): (us: seq<nat>)
    ensures forall i :: 0 <= i < |us| ==> us[i] < |raws| && UsableRaw(raws[us[i]])
    ensures forall i, k :: 0 <= i < k < |us| ==> us[i] < us[k]
    ensures forall n :: 0 <= n < |raws| && UsableRaw(raws[n]) ==> n in us
  {
    if raws == [] then []
    else
      var n := |raws| - 1;
      var rest := UsableAt(raws[..n]);
      if UsableRaw(raws[n]) then rest + [n] else rest
  }

  ghost predicate Normalised(issuers: seq<Issuer>) {
    forall i :: 0 <= i < |issuers| ==> issuers[i].issuer != "" && TrimSlashes(issuers[i].issuer) == issuers[i].issuer
  }

  /** What discovery and the key download find for an issuer; each configured position asks anew, so two positions
      of one issuer may find different keys. */
  type Discovery = (nat, string) -> Option<Keys>

  predicate Discovers(raws: seq<string>, discover: Discovery) {
    forall n :: 0 <= n < |raws| && UsableRaw(raws[n]) ==> discover(n, Normalise(raws[n])).Some?
  }

  ghost predicate EntryAt(entry: Issuer, raws: seq<string>, audiences: seq<string>, discover: Discovery, n: nat) {
    n < |raws| && discover(n, Normalise(raws[n])).Some?
    && entry == Issuer(Normalise(raws[n]), audiences, discover(n, Normalise(raws[n])).value)
  }

  /** The entries of a verifier: one per usable position, in order, with the keys found there. */
  ghost predicate Entries(issuers: seq<Issuer>, raws: seq<string>, audiences: seq<string>, discover: Discovery) {
    && |issuers| == |UsableAt(raws)|
    && forall i :: 0 <= i < |issuers| ==> EntryAt(issuers[i], raws, audiences, discover, UsableAt(raws)[i])
  }

  lemma UsableStep(raws: seq<string>, n: nat)
    requires n < |raws|
    ensures UsableAt(raws[..n + 1]) == if UsableRaw(raws[n]) then UsableAt(raws[..n]) + [n] else UsableAt(raws[..n])
  {
    assert raws[..n + 1][..n] == raws[..n];
  }

  lemma DiscoversStep(raws: seq<string>, discover: Discovery, n: nat)
    requires n < |raws| && Discovers(raws[..n], discover)
    ensures UsableRaw(raws[n]) && discover(n, Normalise(raws[n])).None? ==> !Discovers(raws, discover)
    ensures !UsableRaw(raws[n]) || discover(n, Normalise(raws[n])).Some? ==> Discovers(raws[..n + 1], discover)
  {
    hide Normalise, UsableRaw;
    forall k | 0 <= k < n ensures raws[..n + 1][k] == raws[..n][k] {
    }
  }

  lemma EntryStays(entry: Issuer, raws: seq<string>, audiences: seq<string>, discover: Discovery, k: nat, n: nat)
    requires n < |raws| && EntryAt(entry, raws[..n], audiences, discover, k)
    ensures EntryAt(entry, raws[..n + 1], audiences, discover, k)
  {
    hide Normalise;
    assert raws[..n + 1][k] == raws[..n][k];
  }

  /** One more position: an unusable one adds nothing, a usable one adds the entry with the keys found there. */
  lemma EntriesStep(issuers: seq<Issuer>, raws: seq<string>, audiences: seq<string>, discover: Discovery, n: nat)
    requires n < |raws| && Entries(issuers, raws[..n], audiences, discover)
    ensures !UsableRaw(raws[n]) ==> Entries(issuers, raws[..n + 1], audiences, discover)
    ensures forall entry :: UsableRaw(raws[n]) && EntryAt(entry, raws, audiences, discover, n) ==>
      Entries(issuers + [entry], raws[..n + 1], audiences, discover)
  {
    hide UsableAt, UsableRaw, EntryAt;
    UsableStep(raws, n);
    forall i | 0 <= i < |issuers| ensures EntryAt(issuers[i], raws[..n + 1], audiences, discover, UsableAt(raws[..n])[i]) {
      EntryStays(issuers[i], raws, audiences, discover, UsableAt(raws[..n])[i], n);
    }
    forall entry | EntryAt(entry, raws, audiences, discover, n) ensures EntryAt(entry, raws[..n + 1], audiences, discover, n) {
      LastEntry(entry, raws, audiences, discover, n);
    }
  }

  lemma LastEntry(entry: Issuer, raws: seq<string>, audiences: seq<string>, discover: Discovery, n: nat)
    requires n < |raws| && EntryAt(entry, raws, audiences, discover, n)
    ensures EntryAt(entry, raws[..n + 1], audiences, discover, n)
  {
    hide Normalise;
  }

  lemma ThisEntry(raws: seq<string>, audiences: seq<string>, discover: Discovery, n: nat, keys: Keys)
    requires n < |raws| && discover(n, Normalise(raws[n])) == Some(keys)
    ensures EntryAt(Issuer(Normalise(raws[n]), audiences, keys), raws, audiences, discover, n)
  {
  }

  lemma NoEntries(audiences: seq<string>, discover: Discovery)
    ensures Entries([], [], audiences, discover) && Discovers([], discover)
  {
  }

  lemma EntriesUsable(issuers: seq<Issuer>, raws: seq<string>, audiences: seq<string>, discover: Discovery)
    requires Entries(issuers, raws, audiences, discover)
    ensures |issuers| == |UsableAt(raws)|
  {
  }

  /** The verifier's constructor: normalise, skip what is empty, discover the keys of the rest, fail on the first
      discovery that fails or when nothing is left. */
  method NewVerifier(raws: seq<string>, audiences: seq<string>, discover: Discovery) returns (v: Option<seq<Issuer>>)
    ensures v.Some? <==> UsableAt(raws) != [] && Discovers(raws, discover)
    ensures v.Some? ==> Normalised(v.value) && Entries(v.value, raws, audiences, discover)
  {
    hide UsableAt, Normalised, Normalise, Entries, Discovers, EntryAt;
    NoEntries(audiences, discover);
    var issuers: seq<Issuer> := [];
    for n := 0 to |raws|
      invariant Entries(issuers, raws[..n], audiences, discover) && Discovers(raws[..n], discover)
    {
      EntriesStep(issuers, raws, audiences, discover, n);
      DiscoversStep(raws, discover, n);
      var iss := Normalise(raws[n]);
      if iss != "" {
        match discover(n, iss) {
          case None => return None;
          case Some(keys) =>
            ThisEntry(raws, audiences, discover, n, keys);
            issuers := issuers + [Issuer(iss, audiences, keys)];
        }
      }
    }
    assert raws[..|raws|] == raws;
    EntriesUsable(issuers, raws, audiences, discover);
    if |issuers| == 0 {
      return None;
    }
    EntriesNormalised(issuers, raws, audiences, discover);
    v := Some(issuers);
  }

  lemma EntriesNormalised(issuers: seq<Issuer>, raws: seq<string>, audiences: seq<string>, discover: Discovery)
    requires Entries(issuers, raws, audiences, discover)
    ensures Normalised(issuers)
  {
    forall i | 0 <= i < |issuers|
      ensures issuers[i].issuer != "" && TrimSlashes(issuers[i].issuer) == issuers[i].issuer
    {
      assert UsableRaw(raws[UsableAt(raws)[i]]);
    }
  }

  /** The unverified peek: the non-empty `iss` of a decodable token. */
  function PeekIssuer(j: Jwt, token: string): Option<string> {
    match j.decode(token)
    case None => None
    case Some(claims) => if claims.iss.Some? && claims.iss.value != "" then claims.iss else None
  }

  /** The issuer validates the token for subject s: with no audience list, or for one of the audiences. */
  ghost predicate Validates(j: Jwt, ia: Issuer, token: string, s: Subject) {
    s != "" &&
    exists aud :: AudienceOf(ia, aud) && ParsesAs(j.parse(ia.keys, ia.issuer, aud, token), s)
  }

  ghost predicate AudienceOf(ia: Issuer, aud: Option<string>) {
    match aud
    case None => ia.audiences == []
    case Some(a) => a in ia.audiences
  }

  predicate ParsesAs(p: ParseResult, s: Subject) {
    p.Parsed? && p.valid && p.claims.Some? && p.claims.value.sub == Some(s)
  }

  /** The subject of a token that parses and is valid. */
  function SubjectOf(p: ParseResult): Option<Subject> {
    match p
    case Parsed(true, Some(claims)) => claims.sub
    case _ => None
  }

  /** One issuer tries the token: the audiences in order until one parses, then validity, claims and subject. */
  method Verify(j: Jwt, ia: Issuer, token: string) returns (sub: Option<Subject>)
    ensures sub.Some? ==> Validates(j, ia, token, sub.value)
    ensures Faithful(j) ==> forall s :: Validates(j, ia, token, s) ==> sub == Some(s)
    ensures sub.Some? ==> sub.value != ""
    ensures sub.Some? && |ia.audiences| == 0 ==> SubjectOf(j.parse(ia.keys, ia.issuer, None, token)) == sub
    ensures sub.Some? && |ia.audiences| > 0 ==>
      exists n :: 0 <= n < |ia.audiences| && SubjectOf(j.parse(ia.keys, ia.issuer, Some(ia.audiences[n]), token)) == sub
  {
    var parsed := Rejected;
    ghost var used: Option<string> := None;
    if |ia.audiences| == 0 {
      parsed := j.parse(ia.keys, ia.issuer, None, token);
    } else {
      for n := 0 to |ia.audiences|
        invariant parsed == Rejected
        invariant forall k :: 0 <= k < n ==> j.parse(ia.keys, ia.issuer, Some(ia.audiences[k]), token).Rejected?
      {
        parsed := j.parse(ia.keys, ia.issuer, Some(ia.audiences[n]), token);
        if parsed.Parsed? {
          used := Some(ia.audiences[n]);
          assert ia.audiences[n] in ia.audiences;
          break;
        }
      }
    }
    assert parsed.Parsed? ==> AudienceOf(ia, used) && parsed == j.parse(ia.keys, ia.issuer, used, token);
    assert parsed.Rejected? ==> forall aud :: AudienceOf(ia, aud) ==> j.parse(ia.keys, ia.issuer, aud, token).Rejected?;
    if parsed.Rejected? {
      return None;
    }
    if !parsed.valid {
      return None;
    }
    if parsed.claims.None? {
      return None;
    }
    var s := if parsed.claims.value.sub.Some? then parsed.claims.value.sub.value else "";
    if s == "" {
      return None;
    }
    sub := Some(s);
  }

  /** The entry the peek routes to: the first issuer equal to the peeked one up to trailing slashes. */
  ghost predicate RoutesTo(issuers: seq<Issuer>, iss: string, i: nat) {
    && i < |issuers|
    && TrimSlashes(issuers[i].issuer) == TrimSlashes(iss)
    && forall k :: 0 <= k < i ==> TrimSlashes(issuers[k].issuer) != TrimSlashes(iss)
  }

  /** The fast path: try one issuer when the peek names it, all of them otherwise. With entries for one issuer
      repeated, only the first of them is ever heard; a token is accepted exactly when the first entry of some
      issuer validates it. */
  method VerifySubject(j: Jwt, issuers: seq<Issuer>, token: string) returns (sub: Option<Subject>)
    requires Normalised(issuers)
    ensures sub.Some? ==> exists i :: 0 <= i < |issuers| && Validates(j, issuers[i], token, sub.value)
    ensures Faithful(j) ==> forall s :: sub == Some(s) <==> FirstValidates(j, issuers, token, s)
    ensures Faithful(j) && sub.Some? ==> IsMeantFor(j, issuers, token)
  {
    if token == "" {
      NothingValidatesEmpty(j, issuers);
      return None;
    }
    var candidates := issuers;
    ghost var only: int := -1;
    var peeked := PeekIssuer(j, token);
    if peeked.Some? {
      for n := 0 to |issuers|
        invariant candidates == issuers && only == -1
        invariant forall k :: 0 <= k < n ==> TrimSlashes(issuers[k].issuer) != TrimSlashes(peeked.value)
      {
        if TrimSlashes(issuers[n].issuer) == TrimSlashes(peeked.value) {
          candidates := [issuers[n]];
          only := n;
          break;
        }
      }
    }
    assert Routed(j, issuers, token, candidates, only);
    sub := None;
    for n := 0 to |candidates|
      invariant sub == None
      invariant Faithful(j) ==> forall k, s :: 0 <= k < n ==> !Validates(j, candidates[k], token, s)
    {
      sub := Verify(j, candidates[n], token);
      if sub.Some? {
        assert Validates(j, candidates[n], token, sub.value);
        break;
      }
    }
    if Faithful(j) {
      forall s ensures sub == Some(s) <==> FirstValidates(j, issuers, token, s) {
        RoutingIsExact(j, issuers, token, candidates, only, sub, s);
      }
      if sub.Some? {
        AcceptedIsMeant(j, issuers, token, sub.value);
      }
    }
  }

  /** Some configured issuer issued the token, and if it has configured audiences the token is for one of them. */
  ghost predicate IsMeantFor(j: Jwt, issuers: seq<Issuer>, token: string) {
    && j.decode(token).Some?
    && exists i :: 0 <= i < |issuers| && j.decode(token).value.iss == Some(issuers[i].issuer)
         && (|issuers[i].audiences| > 0 ==> exists a :: a in issuers[i].audiences && a in j.decode(token).value.aud)
  }

  lemma AcceptedIsMeant(j: Jwt, issuers: seq<Issuer>, token: string, s: Subject)
    requires Faithful(j) && Normalised(issuers) && exists i :: 0 <= i < |issuers| && Validates(j, issuers[i], token, s)
    ensures IsMeantFor(j, issuers, token)
  {
    hide Faithful, Validates;
    var i :| 0 <= i < |issuers| && Validates(j, issuers[i], token, s);
    ValidatedClaims(j, issuers[i], token, s);
    if |issuers[i].audiences| > 0 {
      ValidatedAudience(j, issuers[i], token, s);
    }
  }

  /** A verifier with configured audiences refuses every token that is for none of them. */
  lemma ForeignAudienceIsRefused(j: Jwt, issuers: seq<Issuer>, raws: seq<string>, audiences: seq<string>, discover: Discovery, token: string, s: Subject)
    requires Faithful(j) && Entries(issuers, raws, audiences, discover) && |audiences| > 0
    requires j.decode(token).Some? && forall a :: a in audiences ==> a !in j.decode(token).value.aud
    ensures !FirstValidates(j, issuers, token, s)
  {
    hide Faithful, Validates, UsableAt, Normalise;
    forall i | 0 <= i < |issuers| ensures !Validates(j, issuers[i], token, s) {
      assert EntryAt(issuers[i], raws, audiences, discover, UsableAt(raws)[i]);
      if Validates(j, issuers[i], token, s) {
        ValidatedAudience(j, issuers[i], token, s);
      }
    }
  }

  /** And accepts every token of a configured issuer, its only entry, that parses for one of them with a subject. */
  lemma ListedAudienceIsAccepted(j: Jwt, issuers: seq<Issuer>, token: string, i: nat, n: nat, s: Subject)
    requires i < |issuers| && (forall k :: 0 <= k < |issuers| && k != i ==> issuers[k].issuer != issuers[i].issuer)
    requires n < |issuers[i].audiences| && s != ""
    requires SubjectOf(j.parse(issuers[i].keys, issuers[i].issuer, Some(issuers[i].audiences[n]), token)) == Some(s)
    ensures FirstValidates(j, issuers, token, s)
  {
    hide Validates;
    ValidatesIff(j, issuers[i], token, s);
  }

  /** Some issuer validates the token for s, and no earlier entry is for the same issuer. */
  ghost predicate FirstValidates(j: Jwt, issuers: seq<Issuer>, token: string, s: Subject) {
    exists i :: 0 <= i < |issuers| && Validates(j, issuers[i], token, s)
                && forall k :: 0 <= k < i ==> issuers[k].issuer != issuers[i].issuer
  }

  lemma ValidatedClaims(j: Jwt, ia: Issuer, token: string, s: Subject)
    requires Faithful(j) && Validates(j, ia, token, s)
    ensures j.decode(token).Some? && j.decode(token).value.sub == Some(s)
    ensures ia.issuer != "" ==> j.decode(token).value.iss == Some(ia.issuer)
  {
  }

  /** What validating means in terms of the library's calls: without configured audiences one call that expects none;
      with some, a call that expects one of them. */
  lemma ValidatesIff(j: Jwt, ia: Issuer, token: string, s: Subject)
    ensures |ia.audiences| == 0 ==>
      (Validates(j, ia, token, s) <==> s != "" && SubjectOf(j.parse(ia.keys, ia.issuer, None, token)) == Some(s))
    ensures |ia.audiences| > 0 ==>
      (Validates(j, ia, token, s) <==>
       s != "" && exists n :: 0 <= n < |ia.audiences| && SubjectOf(j.parse(ia.keys, ia.issuer, Some(ia.audiences[n]), token)) == Some(s))
  {
    if Validates(j, ia, token, s) {
      var aud :| AudienceOf(ia, aud) && ParsesAs(j.parse(ia.keys, ia.issuer, aud, token), s);
      if aud.Some? {
        var n :| 0 <= n < |ia.audiences| && ia.audiences[n] == aud.value;
      }
    }
    if n :| 0 <= n < |ia.audiences| && SubjectOf(j.parse(ia.keys, ia.issuer, Some(ia.audiences[n]), token)) == Some(s) {
      assert AudienceOf(ia, Some(ia.audiences[n]));
    }
    assert |ia.audiences| == 0 ==> AudienceOf(ia, None);
  }

  /** Where audiences are configured, a validated token is for one of them. */
  lemma ValidatedAudience(j: Jwt, ia: Issuer, token: string, s: Subject)
    requires Faithful(j) && Validates(j, ia, token, s) && |ia.audiences| > 0
    ensures exists a :: a in ia.audiences && a in j.decode(token).value.aud
  {
    ValidatesIff(j, ia, token, s);
    var n :| 0 <= n < |ia.audiences| && SubjectOf(j.parse(ia.keys, ia.issuer, Some(ia.audiences[n]), token)) == Some(s);
    assert ia.audiences[n] in ia.audiences;
  }

  lemma NothingValidatesEmpty(j: Jwt, issuers: seq<Issuer>)
    ensures Faithful(j) ==> forall s :: !FirstValidates(j, issuers, "", s)
  {
    if Faithful(j) {
      forall ia, s ensures !Validates(j, ia, "", s) {
        if Validates(j, ia, "", s) {
          ValidatedClaims(j, ia, "", s);
        }
      }
    }
  }

  /** What the peek loop of VerifySubject leaves behind. */
  ghost predicate Routed(j: Jwt, issuers: seq<Issuer>, token: string, candidates: seq<Issuer>, only: int) {
    var peeked := PeekIssuer(j, token);
    && (only >= 0 ==> peeked.Some? && RoutesTo(issuers, peeked.value, only) && candidates == [issuers[only]])
    && (only < 0 ==> candidates == issuers && (peeked.Some? ==>
          forall k :: 0 <= k < |issuers| ==> TrimSlashes(issuers[k].issuer) != TrimSlashes(peeked.value)))
  }

  lemma AcceptedIsFirst(j: Jwt, issuers: seq<Issuer>, token: string, candidates: seq<Issuer>, only: int, n: nat, s: Subject)
    requires Faithful(j) && Normalised(issuers) && Routed(j, issuers, token, candidates, only)
    requires n < |candidates| && Validates(j, candidates[n], token, s)
    ensures FirstValidates(j, issuers, token, s)
  {
    ValidatedClaims(j, candidates[n], token, s);
    var iss := candidates[n].issuer;
    assert only >= 0;
    assert issuers[only].issuer == iss;
    forall k | 0 <= k < only ensures issuers[k].issuer != iss {
      assert TrimSlashes(issuers[k].issuer) != TrimSlashes(iss);
    }
  }

  lemma FirstIsRouted(j: Jwt, issuers: seq<Issuer>, token: string, candidates: seq<Issuer>, only: int, i: nat, s: Subject)
    requires Faithful(j) && Normalised(issuers) && Routed(j, issuers, token, candidates, only)
    requires i < |issuers| && Validates(j, issuers[i], token, s)
    requires forall k :: 0 <= k < i ==> issuers[k].issuer != issuers[i].issuer
    ensures candidates == [issuers[i]]
  {
    ValidatedClaims(j, issuers[i], token, s);
    var iss := issuers[i].issuer;
    assert PeekIssuer(j, token) == Some(iss);
    assert only >= 0;
    assert only <= i;
    assert TrimSlashes(issuers[only].issuer) == issuers[only].issuer;
  }

  lemma RoutingIsExact(j: Jwt, issuers: seq<Issuer>, token: string, candidates: seq<Issuer>, only: int, sub: Option<Subject>, s: Subject)
    requires Faithful(j) && Normalised(issuers) && Routed(j, issuers, token, candidates, only)
    requires sub.Some? ==> exists n :: 0 <= n < |candidates| && Validates(j, candidates[n], token, sub.value)
    requires sub.None? ==> forall k, x :: 0 <= k < |candidates| ==> !Validates(j, candidates[k], token, x)
    ensures sub == Some(s) <==> FirstValidates(j, issuers, token, s)
  {
    hide Faithful, Validates, Normalised, Routed;
    if sub == Some(s) {
      var n :| 0 <= n < |candidates| && Validates(j, candidates[n], token, s);
      AcceptedIsFirst(j, issuers, token, candidates, only, n, s);
    }
    if FirstValidates(j, issuers, token, s) {
      var i :| 0 <= i < |issuers| && Validates(j, issuers[i], token, s)
               && forall k :: 0 <= k < i ==> issuers[k].issuer != issuers[i].issuer;
      FirstIsRouted(j, issuers, token, candidates, only, i, s);
      assert candidates[0] == issuers[i];
      ValidatedClaims(j, issuers[i], token, s);
      var n :| 0 <= n < |candidates| && Validates(j, candidates[n], token, sub.value);
      ValidatedClaims(j, candidates[n], token, sub.value);
    }
  }

  /** With pairwise distinct issuers the fast path loses nothing: the first entry is the only one, so a token is
      accepted for s just when some configured issuer validates it for s. */
  lemma DistinctIssuersRefineExhaustive(j: Jwt, issuers: seq<Issuer>, token: string, s: Subject)
    requires forall i, k :: 0 <= k < i < |issuers| ==> issuers[k].issuer != issuers[i].issuer
    ensures FirstValidates(j, issuers, token, s) <==> exists i :: 0 <= i < |issuers| && Validates(j, issuers[i], token, s)
  {
    if i :| 0 <= i < |issuers| && Validates(j, issuers[i], token, s) {
      assert forall k :: 0 <= k < i ==> issuers[k].issuer != issuers[i].issuer;
    }
  }

  // --- Repeated issuers

  /** Whatever entry b accepts, entry a accepts. */
  ghost predicate Covers(j: Jwt, a: Issuer, b: Issuer) {
    forall token, s :: Validates(j, b, token, s) ==> Validates(j, a, token, s)
  }

  ghost predicate SomeValidates(j: Jwt, issuers: seq<Issuer>, token: string, s: Subject) {
    exists i :: 0 <= i < |issuers| && Validates(j, issuers[i], token, s)
  }

  ghost predicate IsFirst(issuers: seq<Issuer>, i: nat) {
    i < |issuers| && forall k :: 0 <= k < i ==> issuers[k].issuer != issuers[i].issuer
  }

  lemma {:induction false} FirstOf(issuers: seq<Issuer>, i: nat) returns (f: nat)
    requires i < |issuers|
    ensures f <= i && issuers[f].issuer == issuers[i].issuer && IsFirst(issuers, f)
  {
    if k: nat :| k < i && issuers[k].issuer == issuers[i].issuer {
      f := FirstOf(issuers, k);
    } else {
      f := i;
    }
  }

  /** Only the first entry of a token's issuer can be the one that validates it first. */
  lemma HeardEntry(j: Jwt, issuers: seq<Issuer>, token: string, s: Subject, f: nat, i: nat)
    requires Faithful(j) && Normalised(issuers) && i < |issuers| && IsFirst(issuers, f) && issuers[f].issuer == issuers[i].issuer
    requires Validates(j, issuers[i], token, s) && FirstValidates(j, issuers, token, s)
    ensures Validates(j, issuers[f], token, s)
  {
    hide Faithful, Validates;
    var g :| 0 <= g < |issuers| && Validates(j, issuers[g], token, s)
             && forall k :: 0 <= k < g ==> issuers[k].issuer != issuers[g].issuer;
    ValidatedClaims(j, issuers[i], token, s);
    ValidatedClaims(j, issuers[g], token, s);
    assert f == g;
  }

  /** The first entry of every issuer accepts whatever the issuer's other entries accept. */
  ghost predicate FirstCovers(j: Jwt, issuers: seq<Issuer>) {
    forall f, i :: 0 <= f < i < |issuers| && IsFirst(issuers, f) && issuers[f].issuer == issuers[i].issuer ==>
      Covers(j, issuers[f], issuers[i])
  }

  ghost predicate FastIsExhaustive(j: Jwt, issuers: seq<Issuer>) {
    forall token, s :: FirstValidates(j, issuers, token, s) <==> SomeValidates(j, issuers, token, s)
  }

  lemma FastNeedsCover(j: Jwt, issuers: seq<Issuer>, f: nat, i: nat)
    requires Faithful(j) && Normalised(issuers) && FastIsExhaustive(j, issuers)
    requires f < i < |issuers| && IsFirst(issuers, f) && issuers[f].issuer == issuers[i].issuer
    ensures Covers(j, issuers[f], issuers[i])
  {
    hide Faithful, Validates, IsFirst, FirstValidates;
    forall token, s | Validates(j, issuers[i], token, s) ensures Validates(j, issuers[f], token, s) {
      assert SomeValidates(j, issuers, token, s);
      HeardEntry(j, issuers, token, s, f, i);
    }
  }

  lemma CoverSuffices(j: Jwt, issuers: seq<Issuer>, token: string, s: Subject)
    requires FirstCovers(j, issuers) && SomeValidates(j, issuers, token, s)
    ensures FirstValidates(j, issuers, token, s)
  {
    hide Validates, IsFirst, FirstValidates, FirstCovers;
    var i :| 0 <= i < |issuers| && Validates(j, issuers[i], token, s);
    var f := FirstOf(issuers, i);
    if f < i {
      CoveredBy(j, issuers, f, i);
    }
    FirstIsHeard(j, issuers, token, s, f);
  }

  lemma CoveredBy(j: Jwt, issuers: seq<Issuer>, f: nat, i: nat)
    requires FirstCovers(j, issuers) && f < i < |issuers| && IsFirst(issuers, f) && issuers[f].issuer == issuers[i].issuer
    ensures Covers(j, issuers[f], issuers[i])
  {
    hide Covers, IsFirst;
  }

  /** With repeated issuers the fast path still finds all that the exhaustive search finds, for every token, if and
      only if the first entry of every issuer covers its other entries. */
  lemma FastIsExhaustiveIffFirstCovers(j: Jwt, issuers: seq<Issuer>)
    requires Faithful(j) && Normalised(issuers)
    ensures FastIsExhaustive(j, issuers) <==> FirstCovers(j, issuers)
  {
    hide Faithful, Validates, IsFirst, Covers;
    if FastIsExhaustive(j, issuers) {
      forall f, i | 0 <= f < i < |issuers| && IsFirst(issuers, f) && issuers[f].issuer == issuers[i].issuer
        ensures Covers(j, issuers[f], issuers[i])
      {
        FastNeedsCover(j, issuers, f, i);
      }
    }
    if FirstCovers(j, issuers) {
      forall token, s ensures FirstValidates(j, issuers, token, s) <==> SomeValidates(j, issuers, token, s) {
        if SomeValidates(j, issuers, token, s) {
          CoverSuffices(j, issuers, token, s);
        }
      }
    }
  }

  lemma FirstIsHeard(j: Jwt, issuers: seq<Issuer>, token: string, s: Subject, f: nat)
    requires IsFirst(issuers, f) && Validates(j, issuers[f], token, s)
    ensures FirstValidates(j, issuers, token, s)
  {
    hide Validates;
  }

  /** The positions of one issuer, slash variants included, all find the same keys. */
  predicate StableKeys(raws: seq<string>, discover: Discovery) {
    forall n, k :: 0 <= n < k < |raws| && Normalise(raws[n]) == Normalise(raws[k]) ==>
      discover(n, Normalise(raws[n])) == discover(k, Normalise(raws[k]))
  }

  lemma SameEntry(issuers: seq<Issuer>, raws: seq<string>, audiences: seq<string>, discover: Discovery, f: nat, i: nat)
    requires Entries(issuers, raws, audiences, discover) && StableKeys(raws, discover)
    requires f < i < |issuers| && issuers[f].issuer == issuers[i].issuer
    ensures issuers[f] == issuers[i]
  {
    hide Normalise;
    var n, k := UsableAt(raws)[f], UsableAt(raws)[i];
    assert n < k && Normalise(raws[n]) == Normalise(raws[k]);
  }

  /** From the configuration to the answer: when the positions of an issuer find the same keys, duplicates and
      slash variants included, a token is accepted for s just when some entry validates it for s. */
  lemma StableKeysLoseNothing(j: Jwt, issuers: seq<Issuer>, raws: seq<string>, audiences: seq<string>, discover: Discovery, token: string, s: Subject)
    requires Entries(issuers, raws, audiences, discover) && StableKeys(raws, discover)
    ensures FirstValidates(j, issuers, token, s) <==> SomeValidates(j, issuers, token, s)
  {
    hide Validates, UsableAt, StableKeys, Entries, IsFirst;
    if SomeValidates(j, issuers, token, s) {
      var i :| 0 <= i < |issuers| && Validates(j, issuers[i], token, s);
      var f := FirstOf(issuers, i);
      if f < i {
        SameEntry(issuers, raws, audiences, discover, f, i);
      }
      FirstIsHeard(j, issuers, token, s, f);
    }
  }

  /** A key set that opens one token, issued by "a" for subject "s". */
  const OneToken: Jwt := Jwt(
    (token: string) => if token == "t" then Some(Claims(Some("a"), Some("s"), [])) else None,
    (keys: Keys, iss: string, aud: Option<string>, token: string) =>
      if keys == 1 && iss == "a" && aud == None && token == "t" then Parsed(true, Some(Claims(Some("a"), Some("s"), []))) else Rejected)

  /** Configured twice, with and without a slash; the keys are replaced between the two downloads. */
  const ChangingKeys: Discovery := (n: nat, iss: string) => Some(n)

  /** The condition fails for a verifier that can be built: its second entry validates a token that it refuses. */
  lemma RepeatedIssuerIsUnheard(issuers: seq<Issuer>)
    requires Entries(issuers, ["a", "a/"], [], ChangingKeys)
    ensures Faithful(OneToken) && UsableAt(["a", "a/"]) != [] && Discovers(["a", "a/"], ChangingKeys)
    ensures |issuers| == 2 && Validates(OneToken, issuers[1], "t", "s")
    ensures forall s :: !FirstValidates(OneToken, issuers, "t", s)
  {
    BothUsable();
    assert issuers[0] == Issuer("a", [], 0) && issuers[1] == Issuer("a", [], 1);
    assert AudienceOf(issuers[1], None);
  }

  lemma SlashVariants()
    ensures Normalise("a") == "a" && Normalise("a/") == "a"
  {
    assert TrimSpace("a") == "a" && TrimSpace("a/") == "a/";
    assert TrimSlashes("a") == "a";
    assert "a/"[..1] == "a";
    assert TrimSlashes("a/") == TrimSlashes("a/"[..1]);
  }

  lemma BothUsable()
    ensures UsableAt(["a", "a/"]) == [0, 1] && Normalise("a") == "a" && Normalise("a/") == "a"
  {
    hide Normalise, UsableAt;
    SlashVariants();
    var raws := ["a", "a/"];
    UsableStep(raws, 0);
    UsableStep(raws, 1);
    assert raws[..2] == raws && raws[..0] == [];
    NoneUsable();
  }

  lemma NoneUsable()
    ensures UsableAt([]) == []
  {
  }

  /** Trailing slashes are trimmed from the configuration but the `iss` claim is compared exactly, so a token whose
      `iss` ends in a slash is never accepted, whatever was configured. */
  lemma SlashedIssuerIsRefused(j: Jwt, issuers: seq<Issuer>, token: string, iss: string, s: Subject)
    requires Faithful(j) && Normalised(issuers)
    requires j.decode(token).Some? && j.decode(token).value.iss == Some(iss + "/")
    ensures !FirstValidates(j, issuers, token, s)
  {
    if FirstValidates(j, issuers, token, s) {
      var i :| 0 <= i < |issuers| && Validates(j, issuers[i], token, s);
      ValidatedClaims(j, issuers[i], token, s);
    }
  }
}
