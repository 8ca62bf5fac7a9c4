/** The start-up check on the upstream API token: non-empty and shaped like a UUID. */
module HypixelApi {
  import opened Wrappers

  /** `[0-9a-f]` under the `i` flag. */
  predicate IsHexDigit(c: char) {
    '0' <= c <= '9' || 'a' <= c <= 'f' || 'A' <= c <= 'F'
  }

  /** The regex's hex groups, `{8}-{4}-{4}-{4}-{12}`. */
  const TokenGroups: seq<nat> := [8, 4, 4, 4, 12]

  /**
   * The anchored pattern matched from position `at`: a run of `groups[0]` hex digits, then
   * either the end of the input (last group) or a `-` and the remaining groups.
   */
  predicate MatchesFrom(s: string, at: nat, groups: seq<nat>)
    requires at <= |s| && |groups| > 0
    decreases |groups|
  {
    var end := at + groups[0];
    && end <= |s|
    && (forall k :: at <= k < end ==> IsHexDigit(s[k]))
    && if |groups| == 1 then end == |s|
       else end < |s| && s[end] == '-' && MatchesFrom(s, end + 1, groups[1..])
  }

  /** `uuidv4Regex.test(s)`. */
  predicate MatchesUuidPattern(s: string) {
    MatchesFrom(s, 0, TokenGroups)
  }

  /** `!token || !uuidv4Regex.test(token)` fails. */
  predicate TokenAccepted(token: string) {
    token != "" && MatchesUuidPattern(token)
  }

  datatype TokenError = InvalidToken

  /** `process.env.API_TOKEN ?? ''`, then the check that throws at start-up. */
  function CheckToken(env: map<string, string>): (r: Result<string, TokenError>)
    ensures r.Success? <==> "API_TOKEN" in env && TokenAccepted(env["API_TOKEN"])
    ensures r.Success? ==> r.value == env["API_TOKEN"]
  {
    var token := if "API_TOKEN" in env then env["API_TOKEN"] else "";
    if !TokenAccepted(token) then Failure(InvalidToken) else Success(token)
  }

  /** The positions of the four dashes. */
  predicate IsDashPosition(i: int) {
    i == 8 || i == 13 || i == 18 || i == 23
  }

  /** Position by position: 36 characters, `-` at 8, 13, 18 and 23, hex digits everywhere else. */
  predicate UuidShaped(s: string) {
    |s| == 36 && forall i :: 0 <= i < 36 ==> if IsDashPosition(i) then s[i] == '-' else IsHexDigit(s[i])
  }

  predicate HexBetween(s: string, lo: nat, hi: nat)
    requires lo <= hi <= |s|
  {
    forall k :: lo <= k < hi ==> IsHexDigit(s[k])
  }

  /** The pattern, unrolled group by group. */
  lemma {:induction false} MatchesUnrolled(s: string)
    ensures MatchesUuidPattern(s) <==>
      && |s| == 36
      && HexBetween(s, 0, 8) && s[8] == '-'
      && HexBetween(s, 9, 13) && s[13] == '-'
      && HexBetween(s, 14, 18) && s[18] == '-'
      && HexBetween(s, 19, 23) && s[23] == '-'
      && HexBetween(s, 24, 36)
  {
    var g := TokenGroups;
    assert g[1..] == [4, 4, 4, 12] && g[1..][1..] == [4, 4, 12] && g[1..][1..][1..] == [4, 12];
    assert g[1..][1..][1..][1..] == [12];
    if |s| >= 24 {
      assert MatchesFrom(s, 24, [12]) <==> |s| == 36 && HexBetween(s, 24, |s|);
      assert MatchesFrom(s, 19, [4, 12]) <==> HexBetween(s, 19, 23) && s[23] == '-' && MatchesFrom(s, 24, [12]);
    }
    if |s| >= 19 {
      assert MatchesFrom(s, 14, [4, 4, 12]) <==> HexBetween(s, 14, 18) && s[18] == '-' && MatchesFrom(s, 19, [4, 12]);
    }
    if |s| >= 14 {
      assert MatchesFrom(s, 9, [4, 4, 4, 12]) <==> HexBetween(s, 9, 13) && s[13] == '-' && MatchesFrom(s, 14, [4, 4, 12]);
    }
    if |s| >= 9 {
      assert MatchesFrom(s, 0, g) <==> HexBetween(s, 0, 8) && s[8] == '-' && MatchesFrom(s, 9, [4, 4, 4, 12]);
    }
  }

  /** A token is accepted exactly when it has the 8-4-4-4-12 shape, with nothing before or after. */
  lemma TokenAcceptedIffUuidShaped(token: string)
    ensures TokenAccepted(token) <==> UuidShaped(token)
  {
    MatchesUnrolled(token);
    if UuidShaped(token) {
      assert forall k :: 0 <= k < 36 && !IsDashPosition(k) ==> IsHexDigit(token[k]);
    }
  }

  /** The empty token, and so an unset `API_TOKEN`, is refused. */
  lemma EmptyTokenRejected(env: map<string, string>)
    requires "API_TOKEN" !in env || env["API_TOKEN"] == ""
    ensures CheckToken(env) == Failure(InvalidToken)
  {
  }

  /** Accepted tokens are exactly 36 characters long with a dash at each of 8, 13, 18 and 23. */
  lemma AcceptedTokenLayout(token: string)
    requires TokenAccepted(token)
    ensures |token| == 36 && token[8] == '-' && token[13] == '-' && token[18] == '-' && token[23] == '-'
    ensures forall i :: 0 <= i < 36 && !IsDashPosition(i) ==> IsHexDigit(token[i])
  {
    TokenAcceptedIffUuidShaped(token);
  }
}
