/** Bearer-header parsing, token verification outcome and token signing. */
module Auth {
  import opened Wrappers
  import opened Domain

  /** The two environment variables read at start-up; either may be unset. */
  datatype Env = Env(nodeEnv: Option<string>, jwtSecret: Option<string>)

  const BearerPrefix: string := "Bearer "
  const DevSecret: string := "dev-secret"
  const Production: string := "production"
  const Validity: string := "7d"

  predicate StartsWith(s: string, p: string) {
    |p| <= |s| && s[..|p|] == p
  }

  /** True when `pat` occurs in `s` starting at index `i`. */
  predicate OccursAt(s: string, pat: string, i: int) {
    0 <= i <= |s| - |pat| && s[i..i + |pat|] == pat
  }

  /** True when `pat` occurs somewhere in `s`. */
  predicate Occurs(s: string, pat: string) {
    exists i | 0 <= i <= |s| - |pat| :: OccursAt(s, pat, i)
  }

  /** `s.replace(pat, rep)` with a string pattern. Two cases are stated: an
      occurrence at the start is replaced, and a string without `pat` is
      returned unchanged. */
  function ReplaceFirst(s: string, pat: string, rep: string): (r: string)
    ensures StartsWith(s, pat) ==> r == rep + s[|pat|..]
    ensures !Occurs(s, pat) ==> r == s
    decreases |s|
  {
    if StartsWith(s, pat) then
      assert OccursAt(s, pat, 0);
      rep + s[|pat|..]
    else if s == [] then s
    else
      OccursInTail(s, pat);
      assert !Occurs(s, pat) ==> [s[0]] + s[1..] == s;
      [s[0]] + ReplaceFirst(s[1..], pat, rep)
  }

  /** An occurrence in the tail of `s` is an occurrence in `s`. */
  lemma OccursInTail(s: string, pat: string)
    requires s != []
    ensures Occurs(s[1..], pat) ==> Occurs(s, pat)
  {
    if Occurs(s[1..], pat) {
      var i :| 0 <= i <= |s| - 1 - |pat| && OccursAt(s[1..], pat, i);
      assert s[i + 1..i + 1 + |pat|] == s[1..][i..i + |pat|];
      assert OccursAt(s, pat, i + 1);
    }
  }

  /** The header is present and starts with "Bearer ". */
  predicate HasBearer(header: Option<string>) {
    header.Some? && StartsWith(header.value, BearerPrefix)
  }

  /** What getMe's header check and token verification decide. */
  datatype Gate = NoAccess | Denied | Admitted(token: string)

  /** The header check and verification of getMe: a missing or non-"Bearer "
      header is refused outright, otherwise the prefix is stripped and the
      rest is verified against JWT_SECRET. */
  function BearerGate(header: Option<string>, env: Env, verify: (string, Option<string>) -> bool): (g: Gate)
    ensures g == NoAccess <==> !HasBearer(header)
    ensures HasBearer(header) ==>
      var token := header.value[|BearerPrefix|..];
      && (g == Denied <==> !verify(token, env.jwtSecret))
      && (g.Admitted? ==> g.token == token)
  {
    if header.None? || !StartsWith(header.value, BearerPrefix) then NoAccess
    else
      var token := ReplaceFirst(header.value, BearerPrefix, "");
      assert token == header.value[|BearerPrefix|..];
      if !verify(token, env.jwtSecret) then Denied else Admitted(token)
  }

  /** The secret login signs with: JWT_SECRET in production, otherwise the
      fixed development secret. */
  function SigningSecret(env: Env): (s: Option<string>)
    ensures env.nodeEnv == Some(Production) ==> s == env.jwtSecret
    ensures env.nodeEnv != Some(Production) ==> s == Some(DevSecret)
  {
    if env.nodeEnv == Some(Production) then env.jwtSecret else Some(DevSecret)
  }

  /** A signed token: payload `{_id: subject}`, the secret it was signed
      with and its `expiresIn` option. */
  datatype Token = Token(subject: UserId, secret: string, expiresIn: string)

  /** Synchronous signing: it throws (None here) when the secret is unset or empty. */
  function Sign(subject: UserId, secret: Option<string>): (t: Option<Token>)
    ensures t.Some? <==> secret.Some? && secret.value != ""
    ensures t.Some? ==> t.value == Token(subject, secret.value, Validity)
  {
    if secret.None? || secret.value == "" then None
    else Some(Token(subject, secret.value, Validity))
  }
}
