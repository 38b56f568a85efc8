/**
  The OAuth token endpoint (mastodonapi/oauth.go, store/oauth.go): authorization codes are
  exchanged for user tokens, client credentials for application tokens.

  SHA-256 and base64 are functions; random strings are chosen by the environment.
 */
module OAuth {
  import opened Wrappers
  import opened Text

  datatype App = App(id: nat, secretHash: string, redirectUris: string, scopes: string)

  /** A row of oauth_authorization_codes; an empty challenge means none was given. */
  datatype Code = Code(id: nat, app: nat, actor: nat, redirect: string, scopes: string,
                       challenge: string, challengeMethod: string, expires: int)

  /** A row of oauth_access_tokens; application tokens have no actor. */
  datatype Token = Token(app: nat, actor: Option<nat>, scopes: string)

  type Codes = map<string, Code>
  type Tokens = map<string, Token>   // by hash

  /** Registered applications by client id, the secret hash, and the S256 challenge of a verifier. */
  datatype Config = Config(apps: map<string, App>, hash: string -> string, s256: string -> string)

  /** The parameters of a token request, trimmed except for the secret. */
  datatype Exchange = Exchange(code: string, clientId: string, secret: string, redirect: string, verifier: string)
  datatype Grant = Grant(clientId: string, secret: string, redirect: string, scope: string)

  // ----- Checks -----

  /** OAuthApplicationByClientID and VerifyClientSecret */
  function Client(cfg: Config, clientId: string, secret: string): Option<App> {
    if clientId in cfg.apps && secret != "" && cfg.hash(secret) == cfg.apps[clientId].secretHash
    then Some(cfg.apps[clientId]) else None
  }

  /** pkceVerify */
  predicate PkceOk(cfg: Config, verifier: string, code: Code) {
    code.challenge == "" ||
    (var v := TrimSpace(verifier);
     var given := ToUpper(TrimSpace(code.challengeMethod));
     var m := if given == "" then "S256" else given;
     v != "" && ((m == "S256" && cfg.s256(v) == code.challenge) || (m == "PLAIN" && v == code.challenge)))
  }

  function ToUpper(s: string): string {
    seq(|s|, i requires 0 <= i < |s| => UpperChar(s[i]))
  }

  function Spaced(s: string): string {
    seq(|s|, i requires 0 <= i < |s| => if s[i] == '+' then ' ' else s[i])
  }

  function Scopes(s: string): seq<string> {
    Fields(Spaced(TrimSpace(s)))
  }

  predicate ScopesWithin(requested: string, allowed: string) {
    forall scope | scope in Scopes(requested) :: scope in Scopes(allowed)
  }

  /** The scopes of a text are its longest parts without white space and without a plus. */
  lemma ScopesAreTheParts(s: string, scope: string)
    ensures scope in Scopes(s) <==> HasField(TrimSpace(s), c => IsSpace(c) || c == '+', 0, scope)
  {
    hide TrimSpace;
    var t := TrimSpace(s);
    var u := Spaced(t);
    var parted := c => IsSpace(c) || c == '+';
    FieldsAreTheParts(u, IsSpace, scope);
    forall i: nat, j: nat ensures IsField(u, IsSpace, i, j) <==> IsField(t, parted, i, j) {
      assert forall k | 0 <= k < |t| :: IsSpace(u[k]) <==> parted(t[k]);
    }
    forall i: nat, j: nat | IsField(t, parted, i, j) ensures u[i..j] == t[i..j] {
    }
  }

  method OauthScopesSubset(requested: string, allowed: string) returns (ok: bool)
    ensures ok == ScopesWithin(requested, allowed)
  {
    hide Scopes;
    var req := Scopes(requested);
    if |req| == 0 {
      return true;
    }
    var allow := Scopes(allowed);
    var known: set<string> := {};
    for k := 0 to |allow|
      invariant known == set scope | scope in allow[..k]
    {
      assert allow[..k + 1] == allow[..k] + [allow[k]];
      known := known + {allow[k]};
    }
    assert allow[..|allow|] == allow;
    for k := 0 to |req|
      invariant forall scope | scope in req[..k] :: scope in allow
    {
      assert req[..k + 1] == req[..k] + [req[k]];
      if req[k] !in known {
        assert req[k] in req;
        return false;
      }
    }
    assert req[..|req|] == req;
    return true;
  }

  predicate SeparatesUris(c: char) {
    c == ' ' || c == '\n' || c == '\t'
  }

  predicate RedirectAllowed(registered: string, candidate: string) {
    var c := TrimSpace(candidate);
    c != "" && exists part | part in FieldsFunc(TrimSpace(registered), SeparatesUris) :: TrimSpace(part) == c
  }

  /** The registered URIs are the longest parts of the text without a space, newline or tab. */
  lemma RedirectAllowedIffRegistered(registered: string, candidate: string)
    ensures var r, c := TrimSpace(registered), TrimSpace(candidate);
            RedirectAllowed(registered, candidate) <==>
              && c != ""
              && exists i: nat, j: nat :: IsField(r, x => x == ' ' || x == '\n' || x == '\t', i, j)
                                          && TrimSpace(r[i..j]) == c
  {
    hide TrimSpace;
    var r, c := TrimSpace(registered), TrimSpace(candidate);
    var blank := x => x == ' ' || x == '\n' || x == '\t';
    assert forall i: nat, j: nat :: IsField(r, blank, i, j) <==> IsField(r, SeparatesUris, i, j);
    forall part ensures part in FieldsFunc(r, SeparatesUris) <==> HasField(r, SeparatesUris, 0, part) {
      FieldsAreTheParts(r, SeparatesUris, part);
    }
    if i: nat, j: nat :| IsField(r, SeparatesUris, i, j) && TrimSpace(r[i..j]) == c {
      assert HasField(r, SeparatesUris, 0, r[i..j]);
    }
  }

  method RedirectURIAllowed(registered: string, candidate: string) returns (ok: bool)
    ensures ok == RedirectAllowed(registered, candidate)
  {
    hide TrimSpace;
    var reg, c := TrimSpace(registered), TrimSpace(candidate);
    if reg == "" || c == "" {
      return false;
    }
    var parts := FieldsFunc(reg, SeparatesUris);
    for k := 0 to |parts|
      invariant forall part | part in parts[..k] :: TrimSpace(part) != c
    {
      if TrimSpace(parts[k]) == c {
        assert parts[k] in parts;
        return true;
      }
      assert parts[..k + 1] == parts[..k] + [parts[k]];
    }
    assert parts[..|parts|] == parts;
    return false;
  }

  // ----- The transactions, run alone -----

  /** The row ConsumeAuthorizationCode deletes. */
  predicate Live(codes: Codes, code: string, redirect: string, now: int) {
    code in codes && codes[code].redirect == redirect && codes[code].expires > now
  }

  /** Everything an exchange has to pass. */
  predicate Redeemable(cfg: Config, codes: Codes, x: Exchange, now: int) {
    && x.code != "" && x.clientId != "" && x.redirect != ""
    && Client(cfg, x.clientId, x.secret).Some?
    && Live(codes, x.code, x.redirect, now)
    && codes[x.code].app == Client(cfg, x.clientId, x.secret).value.id
    && PkceOk(cfg, x.verifier, codes[x.code])
  }

  /**
    What a redemption proves: the application's secret, that the code was issued to it for this redirect URI
    and is not expired, and the verifier behind the challenge, by method S256 (also when none is named) or plain.
   */
  lemma RedeemableIff(cfg: Config, codes: Codes, x: Exchange, now: int)
    ensures Redeemable(cfg, codes, x, now) <==>
              && x.code != "" && x.clientId != "" && x.redirect != ""
              && x.clientId in cfg.apps && x.secret != "" && cfg.hash(x.secret) == cfg.apps[x.clientId].secretHash
              && x.code in codes
              && var code := codes[x.code];
              && code.app == cfg.apps[x.clientId].id && code.redirect == x.redirect && now < code.expires
              && (code.challenge != "" ==>
                    var v, m := TrimSpace(x.verifier), ToUpper(TrimSpace(code.challengeMethod));
                    && v != ""
                    && (if m == "" || m == "S256" then cfg.s256(v) == code.challenge
                        else m == "PLAIN" && v == code.challenge))
  {
    hide TrimSpace, ToUpper;
  }

  predicate Grantable(cfg: Config, g: Grant) {
    && g.clientId != "" && g.redirect != ""
    && Client(cfg, g.clientId, g.secret).Some?
    && RedirectAllowed(Client(cfg, g.clientId, g.secret).value.redirectUris, g.redirect)
    && ScopesWithin(GrantScope(g), Client(cfg, g.clientId, g.secret).value.scopes)
  }

  /** What client credentials prove: the application's secret, a registered URI, and only registered scopes. */
  lemma GrantableIff(cfg: Config, g: Grant)
    ensures Grantable(cfg, g) <==>
              && g.clientId != "" && g.redirect != "" && g.clientId in cfg.apps
              && var app := cfg.apps[g.clientId];
              && g.secret != "" && cfg.hash(g.secret) == app.secretHash
              && RedirectAllowed(app.redirectUris, g.redirect)
              && var asked := if g.scope == "" then "read" else g.scope;
              forall scope | scope in Scopes(asked) :: scope in Scopes(app.scopes)
  {
    hide RedirectAllowed, Scopes;
  }

  function GrantScope(g: Grant): string {
    if g.scope == "" then "read" else g.scope
  }

  function UserToken(code: Code): Token {
    Token(code.app, Some(code.actor), code.scopes)
  }

  function AppToken(cfg: Config, g: Grant): Token
    requires Client(cfg, g.clientId, g.secret).Some?
  {
    Token(Client(cfg, g.clientId, g.secret).value.id, None, GrantScope(g))
  }

  class Store {
    var codes: Codes
    var tokens: Tokens

    /** The handler; `hash` is that of the token drawn; the connection is lost after `lostAfter` statements. */
    method PostOAuthTokenAuthorizationCode(cfg: Config, x: Exchange, hash: string, now: int, lostAfter: nat)
      returns (ok: bool)
      modifies this
      ensures ok ==> Redeemable(cfg, old(codes), x, now) && hash !in old(tokens)
      ensures ok ==> codes == old(codes) - {x.code} && tokens == old(tokens)[hash := UserToken(old(codes)[x.code])]
      ensures !ok ==> codes == old(codes) && tokens == old(tokens)
      ensures Redeemable(cfg, old(codes), x, now) && hash !in old(tokens) && lostAfter > 1 ==> ok
    {
      hide PkceOk;
      if x.code == "" || x.clientId == "" || x.redirect == "" {
        return false;
      }
      var app := Client(cfg, x.clientId, x.secret);
      if app.None? {
        return false;
      }
      var txCodes, txTokens := codes, tokens;
      if lostAfter == 0 {
        return false;
      }
      if !Live(txCodes, x.code, x.redirect, now) {
        return false;
      }
      var row := txCodes[x.code];
      txCodes := txCodes - {x.code};
      if row.app != app.value.id {
        return false;
      }
      if !PkceOk(cfg, x.verifier, row) {
        return false;
      }
      if lostAfter == 1 || hash in txTokens {
        return false;
      }
      txTokens := txTokens[hash := UserToken(row)];
      codes, tokens := txCodes, txTokens;
      return true;
    }

    method PostOAuthTokenClientCredentials(cfg: Config, g: Grant, hash: string, lostAfter: nat) returns (ok: bool)
      modifies this
      ensures ok ==> Grantable(cfg, g) && hash !in old(tokens)
      ensures ok ==> codes == old(codes) && tokens == old(tokens)[hash := AppToken(cfg, g)]
      ensures !ok ==> codes == old(codes) && tokens == old(tokens)
      ensures Grantable(cfg, g) && hash !in old(tokens) && lostAfter > 0 ==> ok
    {
      hide RedirectAllowed, ScopesWithin;
      if g.clientId == "" || g.redirect == "" {
        return false;
      }
      var app := Client(cfg, g.clientId, g.secret);
      if app.None? {
        return false;
      }
      var allowed := RedirectURIAllowed(app.value.redirectUris, g.redirect);
      if !allowed {
        return false;
      }
      var scope := g.scope;
      if scope == "" {
        scope := "read";
      }
      var within := OauthScopesSubset(scope, app.value.scopes);
      if !within {
        return false;
      }
      if lostAfter == 0 || hash in tokens {
        return false;
      }
      tokens := tokens[hash := Token(app.value.id, None, scope)];
      return true;
    }
  }
}
