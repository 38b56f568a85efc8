/**
  Token requests as concurrent transactions. The DELETE that consumes a code locks its row
  until its transaction ends; any transaction may be rolled back at any time.
 */
module OAuthProtocol {
  import opened Wrappers
  import opened Text
  import opened OAuth

  datatype Tx =
    | Consumed(x: Exchange, app: App, row: Code, now: int)
    | Minted(x: Exchange, app: App, row: Code, now: int, hash: string)
    | Granted(g: Grant, hash: string)

  /** Why a user token exists: the code it came from and the request that redeemed it. */
  datatype Redemption = Redemption(row: Code, x: Exchange, now: int)

  /**
    `issued` and `redemptions` are history: every code row ever inserted, by id, and the origin
    of every user token.
   */
  datatype State = State(
    codes: Codes,
    tokens: Tokens,
    open: map<nat, Tx>,
    issued: seq<Code>,
    redemptions: map<string, Redemption>)

  datatype Step =
    | Issue(code: string, app: nat, actor: nat, redirect: string, scopes: string,
            challenge: string, challengeMethod: string, now: int)
    | Consume(w: nat, x: Exchange, now: int)
    | Mint(w: nat, hash: string)
    | MintApp(w: nat, g: Grant, hash: string)
    | Commit(w: nat)
    | Rollback(w: nat)

  const EMPTY := State(map[], map[], map[], [], map[])
  const CODE_LIFETIME := 600 * 1_000_000_000

  predicate Locked(s: State, code: string) {
    exists w | w in s.open :: !s.open[w].Granted? && s.open[w].x.code == code
  }

  predicate HashTaken(s: State, hash: string) {
    hash in s.tokens || exists w | w in s.open :: !s.open[w].Consumed? && s.open[w].hash == hash
  }

  function Closed(s: State, w: nat): State {
    s.(open := s.open - {w})
  }

  function AfterIssue(s: State, code: string, app: nat, actor: nat, redirect: string, scopes: string,
                      challenge: string, challengeMethod: string, now: int): State {
    if code in s.codes then s else
      var row := Code(|s.issued|, app, actor, redirect, scopes, challenge, challengeMethod, now + CODE_LIFETIME);
      s.(codes := s.codes[code := row], issued := s.issued + [row])
  }

  /** A locked row makes the DELETE wait; a row that is not there ends the request. */
  function AfterConsume(cfg: Config, s: State, w: nat, x: Exchange, now: int): State {
    if w in s.open || x.code == "" || x.clientId == "" || x.redirect == "" || Client(cfg, x.clientId, x.secret).None?
       || Locked(s, x.code) || !Live(s.codes, x.code, x.redirect, now) then s
    else s.(open := s.open[w := Consumed(x, Client(cfg, x.clientId, x.secret).value, s.codes[x.code], now)])
  }

  function AfterMint(cfg: Config, s: State, w: nat, hash: string): State {
    if w !in s.open || !s.open[w].Consumed? then s
    else
      var t := s.open[w];
      if t.row.app != t.app.id || !PkceOk(cfg, t.x.verifier, t.row) || HashTaken(s, hash) then Closed(s, w)
      else s.(open := s.open[w := Minted(t.x, t.app, t.row, t.now, hash)])
  }

  function AfterMintApp(cfg: Config, s: State, w: nat, g: Grant, hash: string): State {
    if w in s.open || !Grantable(cfg, g) || HashTaken(s, hash) then s else s.(open := s.open[w := Granted(g, hash)])
  }

  function AfterCommit(cfg: Config, s: State, w: nat): State {
    if w !in s.open then s
    else
      match s.open[w]
      case Consumed(_, _, _, _) => s
      case Minted(x, _, row, now, hash) =>
        Closed(s, w).(codes := s.codes - {x.code}, tokens := s.tokens[hash := UserToken(row)],
                      redemptions := s.redemptions[hash := Redemption(row, x, now)])
      case Granted(g, hash) =>
        if Grantable(cfg, g) then Closed(s, w).(tokens := s.tokens[hash := AppToken(cfg, g)]) else s
  }

  function Next(cfg: Config, s: State, step: Step): State {
    match step
    case Issue(code, app, actor, redirect, scopes, challenge, challengeMethod, now) =>
      AfterIssue(s, code, app, actor, redirect, scopes, challenge, challengeMethod, now)
    case Consume(w, x, now) => AfterConsume(cfg, s, w, x, now)
    case Mint(w, hash) => AfterMint(cfg, s, w, hash)
    case MintApp(w, g, hash) => AfterMintApp(cfg, s, w, g, hash)
    case Commit(w) => AfterCommit(cfg, s, w)
    case Rollback(w) => Closed(s, w)
  }

  function Exec(cfg: Config, s: State, run: seq<Step>): State
    decreases |run|
  {
    if run == [] then s else Exec(cfg, Next(cfg, s, run[0]), run[1..])
  }

  // ----- The invariant -----

  ghost predicate IssuedAs(issued: seq<Code>, row: Code) {
    row.id < |issued| && issued[row.id] == row
  }

  ghost predicate CodesOk(codes: Codes, issued: seq<Code>) {
    && (forall i | 0 <= i < |issued| :: issued[i].id == i)
    && (forall c | c in codes :: IssuedAs(issued, codes[c]))
    && (forall c, d | c in codes && d in codes && codes[c].id == codes[d].id :: c == d)
  }

  /** The request passed every check of the code it redeemed. */
  ghost predicate Earned(cfg: Config, r: Redemption) {
    Redeemable(cfg, map[r.x.code := r.row], r.x, r.now)
  }

  ghost predicate RedemptionOk(cfg: Config, tokens: Tokens, issued: seq<Code>, hash: string, r: Redemption) {
    hash in tokens && tokens[hash] == UserToken(r.row) && IssuedAs(issued, r.row) && Earned(cfg, r)
  }

  ghost predicate AppTokenOk(cfg: Config, t: Token) {
    exists g :: Grantable(cfg, g) && t == AppToken(cfg, g)
  }

  ghost predicate TokensOk(cfg: Config, tokens: Tokens, redemptions: map<string, Redemption>, issued: seq<Code>) {
    && (forall h | h in redemptions :: RedemptionOk(cfg, tokens, issued, h, redemptions[h]))
    && (forall h | h in tokens :: if tokens[h].actor.Some? then h in redemptions else AppTokenOk(cfg, tokens[h]))
    && (forall h, k | h in redemptions && k in redemptions && redemptions[h].row.id == redemptions[k].row.id :: h == k)
  }

  ghost predicate Stored(codes: Codes, id: nat) {
    exists c | c in codes :: codes[c].id == id
  }

  ghost predicate Redeemed(redemptions: map<string, Redemption>, id: nat) {
    exists h | h in redemptions :: redemptions[h].row.id == id
  }

  /** Every issued code is stored or redeemed, and none is both. */
  ghost predicate Accounted(codes: Codes, redemptions: map<string, Redemption>, issued: seq<Code>) {
    && (forall i | 0 <= i < |issued| :: Stored(codes, i) || Redeemed(redemptions, i))
    && (forall c, h | c in codes && h in redemptions :: codes[c].id != redemptions[h].row.id)
  }

  ghost predicate HoldsCode(cfg: Config, codes: Codes, x: Exchange, app: App, row: Code, now: int) {
    && x.code in codes && codes[x.code] == row && x.code != "" && x.clientId != "" && x.redirect != ""
    && Client(cfg, x.clientId, x.secret) == Some(app)
    && x.redirect == row.redirect && now < row.expires
  }

  ghost predicate TxOk(cfg: Config, codes: Codes, tokens: Tokens, t: Tx) {
    match t
    case Granted(g, hash) => Grantable(cfg, g) && hash !in tokens
    case Consumed(x, app, row, now) => HoldsCode(cfg, codes, x, app, row, now)
    case Minted(x, app, row, now, hash) =>
      HoldsCode(cfg, codes, x, app, row, now) && hash !in tokens && row.app == app.id && PkceOk(cfg, x.verifier, row)
  }

  /** Different transactions hold different codes and different hashes. */
  ghost predicate Apart(t: Tx, u: Tx) {
    && (!t.Granted? && !u.Granted? ==> t.x.code != u.x.code)
    && (!t.Consumed? && !u.Consumed? ==> t.hash != u.hash)
  }

  ghost predicate OpenOk(cfg: Config, codes: Codes, tokens: Tokens, open: map<nat, Tx>) {
    && (forall w | w in open :: TxOk(cfg, codes, tokens, open[w]))
    && (forall v, w | v in open && w in open && v != w :: Apart(open[v], open[w]))
  }

  ghost predicate Inv(cfg: Config, s: State) {
    && CodesOk(s.codes, s.issued) && TokensOk(cfg, s.tokens, s.redemptions, s.issued)
    && Accounted(s.codes, s.redemptions, s.issued) && OpenOk(cfg, s.codes, s.tokens, s.open)
  }

  // ----- Every step keeps it -----

  /** What the tables of a later state keep for the transactions open in both. */
  lemma OpenStays(cfg: Config, codes: Codes, tokens: Tokens, open: map<nat, Tx>, codes': Codes, tokens': Tokens,
                  open': map<nat, Tx>)
    requires OpenOk(cfg, codes, tokens, open)
    requires forall w | w in open' :: w in open && open'[w] == open[w]
    requires forall w | w in open' && !open[w].Granted? ::
               open[w].x.code in codes' && codes'[open[w].x.code] == codes[open[w].x.code]
    requires forall w | w in open' && !open[w].Consumed? :: open[w].hash !in tokens'
    ensures OpenOk(cfg, codes', tokens', open')
  {
    hide PkceOk, Client, Grantable, Apart;
    forall w | w in open' ensures TxOk(cfg, codes', tokens', open'[w]) {
      assert TxOk(cfg, codes, tokens, open[w]);
    }
  }

  lemma OneMoreOpen(cfg: Config, codes: Codes, tokens: Tokens, open: map<nat, Tx>, w: nat, t: Tx)
    requires OpenOk(cfg, codes, tokens, open) && TxOk(cfg, codes, tokens, t)
    requires forall v | v in open && v != w :: Apart(open[v], t)
    ensures OpenOk(cfg, codes, tokens, open[w := t])
  {
    hide TxOk;
    forall v | v in open && v != w ensures Apart(t, open[v]) {
      assert Apart(open[v], t);
    }
  }

  lemma ClosedKeeps(cfg: Config, s: State, w: nat)
    requires Inv(cfg, s)
    ensures Inv(cfg, Closed(s, w))
  {
    hide TxOk, Apart, CodesOk, TokensOk, Accounted;
  }

  lemma ConsumeKeeps(cfg: Config, s: State, w: nat, x: Exchange, now: int)
    requires Inv(cfg, s)
    ensures Inv(cfg, AfterConsume(cfg, s, w, x, now))
  {
    hide CodesOk, TokensOk, Accounted, OpenOk, Client;
    var n := AfterConsume(cfg, s, w, x, now);
    if n != s {
      OneMoreOpen(cfg, s.codes, s.tokens, s.open, w, n.open[w]);
    }
  }

  lemma MintAppKeeps(cfg: Config, s: State, w: nat, g: Grant, hash: string)
    requires Inv(cfg, s)
    ensures Inv(cfg, AfterMintApp(cfg, s, w, g, hash))
  {
    hide CodesOk, TokensOk, Accounted, OpenOk, Grantable;
    var n := AfterMintApp(cfg, s, w, g, hash);
    if n != s {
      OneMoreOpen(cfg, s.codes, s.tokens, s.open, w, n.open[w]);
    }
  }

  lemma MintKeeps(cfg: Config, s: State, w: nat, hash: string)
    requires Inv(cfg, s)
    ensures Inv(cfg, AfterMint(cfg, s, w, hash))
  {
    hide CodesOk, TokensOk, Accounted, PkceOk, Client;
    var n := AfterMint(cfg, s, w, hash);
    ClosedKeeps(cfg, s, w);
    if n != s && n != Closed(s, w) {
      assert TxOk(cfg, s.codes, s.tokens, s.open[w]);
      forall v | v in s.open && v != w ensures Apart(s.open[v], n.open[w]) {
        assert Apart(s.open[v], s.open[w]);
      }
      OneMoreOpen(cfg, s.codes, s.tokens, s.open, w, n.open[w]);
    }
  }

  lemma IssueKeepsTables(s: State, code: string, row: Code, codes': Codes, issued': seq<Code>)
    requires CodesOk(s.codes, s.issued) && Accounted(s.codes, s.redemptions, s.issued)
    requires forall h | h in s.redemptions :: s.redemptions[h].row.id < |s.issued|
    requires code !in s.codes && row.id == |s.issued| && codes' == s.codes[code := row] && issued' == s.issued + [row]
    ensures CodesOk(codes', issued') && Accounted(codes', s.redemptions, issued')
  {
    assert codes'[code].id == |s.issued|;
    forall i | 0 <= i < |issued'| ensures Stored(codes', i) || Redeemed(s.redemptions, i) {
      if i < |s.issued| && Stored(s.codes, i) {
        var c :| c in s.codes && s.codes[c].id == i;
        assert codes'[c].id == i;
      }
    }
  }

  lemma IssueKeeps(cfg: Config, s: State, code: string, app: nat, actor: nat, redirect: string, scopes: string,
                   challenge: string, challengeMethod: string, now: int)
    requires Inv(cfg, s)
    ensures Inv(cfg, AfterIssue(s, code, app, actor, redirect, scopes, challenge, challengeMethod, now))
  {
    hide CodesOk, Accounted, Earned, AppTokenOk, OpenOk;
    var n := AfterIssue(s, code, app, actor, redirect, scopes, challenge, challengeMethod, now);
    if code !in s.codes {
      forall h | h in s.redemptions ensures RedemptionOk(cfg, n.tokens, n.issued, h, n.redemptions[h]) {
        assert RedemptionOk(cfg, s.tokens, s.issued, h, s.redemptions[h]);
      }
      IssueKeepsTables(s, code, n.codes[code], n.codes, n.issued);
      forall w | w in s.open && !s.open[w].Granted? ensures s.open[w].x.code in s.codes {
        HoldsItsCode(cfg, s, w);
      }
      forall w | w in s.open && !s.open[w].Consumed? ensures s.open[w].hash !in s.tokens {
        HoldsItsHash(cfg, s, w);
      }
      OpenStays(cfg, s.codes, s.tokens, s.open, n.codes, n.tokens, n.open);
    }
  }

  lemma HoldsItsCode(cfg: Config, s: State, w: nat)
    requires OpenOk(cfg, s.codes, s.tokens, s.open) && w in s.open && !s.open[w].Granted?
    ensures s.open[w].x.code in s.codes && s.codes[s.open[w].x.code] == s.open[w].row
  {
    assert TxOk(cfg, s.codes, s.tokens, s.open[w]);
  }

  lemma HoldsItsHash(cfg: Config, s: State, w: nat)
    requires OpenOk(cfg, s.codes, s.tokens, s.open) && w in s.open && !s.open[w].Consumed?
    ensures s.open[w].hash !in s.tokens
  {
    assert TxOk(cfg, s.codes, s.tokens, s.open[w]);
  }

  /** A commit leaves the other transactions their codes and their hashes. */
  lemma CommitKeepsOpen(cfg: Config, s: State, w: nat, codes': Codes, tokens': Tokens)
    requires OpenOk(cfg, s.codes, s.tokens, s.open) && w in s.open && !s.open[w].Consumed?
    requires codes' == if s.open[w].Minted? then s.codes - {s.open[w].x.code} else s.codes
    requires tokens'.Keys == s.tokens.Keys + {s.open[w].hash}
    ensures OpenOk(cfg, codes', tokens', s.open - {w})
  {
    hide TxOk, OpenOk;
    forall v | v in s.open && v != w && !s.open[v].Granted?
      ensures s.open[v].x.code in codes' && codes'[s.open[v].x.code] == s.codes[s.open[v].x.code]
    {
      HoldsItsCode(cfg, s, v);
      AreApart(cfg, s, v, w);
    }
    forall v | v in s.open && v != w && !s.open[v].Consumed? ensures s.open[v].hash !in tokens' {
      HoldsItsHash(cfg, s, v);
      AreApart(cfg, s, v, w);
      assert s.open[v].hash !in tokens'.Keys;
    }
    OpenStays(cfg, s.codes, s.tokens, s.open, codes', tokens', s.open - {w});
  }

  lemma AreApart(cfg: Config, s: State, v: nat, w: nat)
    requires OpenOk(cfg, s.codes, s.tokens, s.open) && v in s.open && w in s.open && v != w
    ensures Apart(s.open[v], s.open[w])
  {
    hide TxOk;
  }

  lemma GrantKeepsTokens(cfg: Config, s: State, g: Grant, hash: string)
    requires TokensOk(cfg, s.tokens, s.redemptions, s.issued) && Grantable(cfg, g) && hash !in s.tokens
    ensures TokensOk(cfg, s.tokens[hash := AppToken(cfg, g)], s.redemptions, s.issued)
  {
    hide Client, RedirectAllowed, ScopesWithin, Earned, IssuedAs;
    var tokens' := s.tokens[hash := AppToken(cfg, g)];
    forall h | h in s.redemptions ensures RedemptionOk(cfg, tokens', s.issued, h, s.redemptions[h]) {
      assert RedemptionOk(cfg, s.tokens, s.issued, h, s.redemptions[h]);
    }
  }

  lemma RedemptionKeepsTokens(cfg: Config, s: State, hash: string, r: Redemption)
    requires TokensOk(cfg, s.tokens, s.redemptions, s.issued) && hash !in s.tokens
    requires IssuedAs(s.issued, r.row) && Earned(cfg, r)
    requires forall h | h in s.redemptions :: s.redemptions[h].row.id != r.row.id
    ensures TokensOk(cfg, s.tokens[hash := UserToken(r.row)], s.redemptions[hash := r], s.issued)
  {
    hide AppTokenOk, Earned, IssuedAs;
    var tokens' := s.tokens[hash := UserToken(r.row)];
    forall h | h in s.redemptions && h != hash ensures RedemptionOk(cfg, tokens', s.issued, h, s.redemptions[h]) {
      assert RedemptionOk(cfg, s.tokens, s.issued, h, s.redemptions[h]);
    }
  }

  lemma RedemptionAccounts(s: State, code: string, hash: string, r: Redemption)
    requires CodesOk(s.codes, s.issued) && Accounted(s.codes, s.redemptions, s.issued)
    requires code in s.codes && s.codes[code] == r.row && hash !in s.redemptions
    ensures CodesOk(s.codes - {code}, s.issued)
    ensures Accounted(s.codes - {code}, s.redemptions[hash := r], s.issued)
  {
    var codes', redemptions' := s.codes - {code}, s.redemptions[hash := r];
    forall i | 0 <= i < |s.issued| ensures Stored(codes', i) || Redeemed(redemptions', i) {
      if i == r.row.id {
        assert redemptions'[hash].row.id == i;
      } else if Stored(s.codes, i) {
        var c :| c in s.codes && s.codes[c].id == i;
        assert codes'[c].id == i;
      } else {
        var h :| h in s.redemptions && s.redemptions[h].row.id == i;
        assert redemptions'[h].row.id == i;
      }
    }
  }

  lemma CommitKeeps(cfg: Config, s: State, w: nat)
    requires Inv(cfg, s)
    ensures Inv(cfg, AfterCommit(cfg, s, w))
  {
    hide TokensOk, PkceOk, Client, Grantable, OpenOk;
    if w in s.open && !s.open[w].Consumed? {
      var n := AfterCommit(cfg, s, w);
      HoldsItsHash(cfg, s, w);
      TxIsOk(cfg, s, w);
      match s.open[w] {
        case Granted(g, hash) =>
          GrantKeepsTokens(cfg, s, g, hash);
          CommitKeepsOpen(cfg, s, w, s.codes, n.tokens);
        case Minted(x, app, row, now, hash) =>
          var r := Redemption(row, x, now);
          RedemptionsHaveTokens(cfg, s);
          RedemptionKeepsTokens(cfg, s, hash, r);
          RedemptionAccounts(s, x.code, hash, r);
          CommitKeepsOpen(cfg, s, w, n.codes, n.tokens);
      }
    }
  }

  lemma TxIsOk(cfg: Config, s: State, w: nat)
    requires OpenOk(cfg, s.codes, s.tokens, s.open) && w in s.open
    ensures TxOk(cfg, s.codes, s.tokens, s.open[w])
  {
  }

  lemma RedemptionsHaveTokens(cfg: Config, s: State)
    requires TokensOk(cfg, s.tokens, s.redemptions, s.issued)
    ensures forall h | h in s.redemptions :: h in s.tokens
  {
    forall h | h in s.redemptions ensures h in s.tokens {
      assert RedemptionOk(cfg, s.tokens, s.issued, h, s.redemptions[h]);
    }
  }

  lemma NextKeepsInv(cfg: Config, s: State, step: Step)
    requires Inv(cfg, s)
    ensures Inv(cfg, Next(cfg, s, step))
  {
    hide Inv, AfterIssue, AfterConsume, AfterMint, AfterMintApp, AfterCommit, Closed;
    match step {
      case Issue(code, app, actor, redirect, scopes, challenge, challengeMethod, now) =>
        IssueKeeps(cfg, s, code, app, actor, redirect, scopes, challenge, challengeMethod, now);
      case Consume(w, x, now) => ConsumeKeeps(cfg, s, w, x, now);
      case Mint(w, hash) => MintKeeps(cfg, s, w, hash);
      case MintApp(w, g, hash) => MintAppKeeps(cfg, s, w, g, hash);
      case Commit(w) => CommitKeeps(cfg, s, w);
      case Rollback(w) => ClosedKeeps(cfg, s, w);
    }
  }

  lemma {:induction false} ExecKeepsInv(cfg: Config, s: State, run: seq<Step>)
    requires Inv(cfg, s)
    ensures Inv(cfg, Exec(cfg, s, run))
    decreases |run|
  {
    hide Inv, Next;
    if run != [] {
      NextKeepsInv(cfg, s, run[0]);
      ExecKeepsInv(cfg, Next(cfg, s, run[0]), run[1..]);
    }
  }

  // ----- Theorems -----

  function UserTokens(tokens: Tokens): set<string> {
    set h | h in tokens && tokens[h].actor.Some?
  }

  /** A set numbered without repetition by `number` has as many elements as numbers. */
  lemma {:induction false} NumberedOnce(keys: set<string>, number: map<string, nat>, numbers: set<nat>)
    requires keys <= number.Keys && (forall k | k in keys :: number[k] in numbers)
    requires forall n | n in numbers :: exists k | k in keys :: number[k] == n
    requires forall h, k | h in keys && k in keys && number[h] == number[k] :: h == k
    ensures |keys| == |numbers|
    decreases |keys|
  {
    if keys == {} {
      assert numbers == {};
    } else {
      var k :| k in keys;
      forall n | n in numbers - {number[k]} ensures exists h | h in keys - {k} :: number[h] == n {
        var h :| h in keys && number[h] == n;
        assert h in keys - {k};
      }
      NumberedOnce(keys - {k}, number, numbers - {number[k]});
    }
  }

  function Below(n: nat): (r: set<nat>)
    ensures |r| == n && forall i: nat :: i in r <==> i < n
  {
    if n == 0 then {} else Below(n - 1) + {n - 1}
  }

  ghost function StoredIds(codes: Codes): (r: set<nat>)
    ensures forall i: nat :: i in r <==> Stored(codes, i)
  {
    set c | c in codes :: codes[c].id
  }

  ghost function RedeemedIds(redemptions: map<string, Redemption>): (r: set<nat>)
    ensures forall i: nat :: i in r <==> Redeemed(redemptions, i)
  {
    set h | h in redemptions :: redemptions[h].row.id
  }

  lemma CodesAreNumbered(s: State)
    requires CodesOk(s.codes, s.issued)
    ensures |s.codes| == |StoredIds(s.codes)| && forall i | i in StoredIds(s.codes) :: i < |s.issued|
  {
    var number := map c | c in s.codes :: s.codes[c].id;
    NumberedOnce(s.codes.Keys, number, StoredIds(s.codes));
    assert |s.codes| == |s.codes.Keys|;
    forall i | i in StoredIds(s.codes) ensures i < |s.issued| {
      var c :| c in s.codes && s.codes[c].id == i;
      assert IssuedAs(s.issued, s.codes[c]);
    }
  }

  lemma RedemptionsAreNumbered(cfg: Config, s: State)
    requires TokensOk(cfg, s.tokens, s.redemptions, s.issued)
    ensures |UserTokens(s.tokens)| == |RedeemedIds(s.redemptions)|
        && forall i | i in RedeemedIds(s.redemptions) :: i < |s.issued|
  {
    hide Earned, AppTokenOk;
    var number := map h | h in s.redemptions :: s.redemptions[h].row.id;
    forall h | h in s.redemptions ensures h in UserTokens(s.tokens) && s.redemptions[h].row.id < |s.issued| {
      assert RedemptionOk(cfg, s.tokens, s.issued, h, s.redemptions[h]);
    }
    assert UserTokens(s.tokens) == s.redemptions.Keys;
    NumberedOnce(s.redemptions.Keys, number, RedeemedIds(s.redemptions));
  }

  lemma IdsArePartitioned(s: State)
    requires Accounted(s.codes, s.redemptions, s.issued)
    requires forall i | i in StoredIds(s.codes) :: i < |s.issued|
    requires forall i | i in RedeemedIds(s.redemptions) :: i < |s.issued|
    ensures |s.issued| == |StoredIds(s.codes)| + |RedeemedIds(s.redemptions)|
  {
    hide StoredIds, RedeemedIds, Below;
    var stored, redeemed := StoredIds(s.codes), RedeemedIds(s.redemptions);
    forall i: nat | i in stored ensures i !in redeemed {
      var c :| c in s.codes && s.codes[c].id == i;
    }
    assert stored + redeemed == Below(|s.issued|);
  }

  /** Over all interleavings and rollbacks: codes ever issued = codes still stored + user tokens minted. */
  lemma CodesAreConserved(cfg: Config, run: seq<Step>)
    ensures var s := Exec(cfg, EMPTY, run); |s.issued| == |s.codes| + |UserTokens(s.tokens)|
  {
    hide Exec, CodesOk, TokensOk, Accounted, OpenOk, UserTokens, StoredIds, RedeemedIds;
    EmptyInv(cfg);
    ExecKeepsInv(cfg, EMPTY, run);
    var s := Exec(cfg, EMPTY, run);
    CodesAreNumbered(s);
    RedemptionsAreNumbered(cfg, s);
    IdsArePartitioned(s);
  }

  lemma EmptyInv(cfg: Config)
    ensures Inv(cfg, EMPTY)
  {
  }

  /**
    A user token stems from an issued code of its application, actor and scopes, presented with
    that application's secret, the code's redirect URI and the verifier behind its challenge,
    before it expired; no other token stems from the same code. Other tokens carry scopes their application registered.
   */
  lemma TokensWereEarned(cfg: Config, run: seq<Step>, hash: string)
    requires hash in Exec(cfg, EMPTY, run).tokens
    ensures var s := Exec(cfg, EMPTY, run); var t := s.tokens[hash];
            if t.actor.Some? then
              && hash in s.redemptions && t == UserToken(s.redemptions[hash].row)
              && IssuedAs(s.issued, s.redemptions[hash].row)
              && (var code, x := s.redemptions[hash].row, s.redemptions[hash].x;
                  && x.clientId in cfg.apps && cfg.apps[x.clientId].id == code.app
                  && x.secret != "" && cfg.hash(x.secret) == cfg.apps[x.clientId].secretHash
                  && x.redirect == code.redirect && s.redemptions[hash].now < code.expires
                  && (code.challenge != "" ==>
                        var v, m := TrimSpace(x.verifier), ToUpper(TrimSpace(code.challengeMethod));
                        && v != ""
                        && (if m == "" || m == "S256" then cfg.s256(v) == code.challenge
                            else m == "PLAIN" && v == code.challenge)))
              && forall h | h in s.redemptions && s.redemptions[h].row.id == s.redemptions[hash].row.id :: h == hash
            else AppTokenOk(cfg, t)
  {
    hide Exec, AppTokenOk, Redeemable, TrimSpace, ToUpper;
    EmptyInv(cfg);
    ExecKeepsInv(cfg, EMPTY, run);
    var s := Exec(cfg, EMPTY, run);
    if s.tokens[hash].actor.Some? {
      var r := s.redemptions[hash];
      RedeemableIff(cfg, map[r.x.code := r.row], r.x, r.now);
      assert RedemptionOk(cfg, s.tokens, s.issued, hash, s.redemptions[hash]);
    }
  }

  /** A code leaves the table only together with the arrival of its token. */
  lemma CodesLeaveOnlyForTokens(cfg: Config, s: State, step: Step, code: string)
    requires Inv(cfg, s) && code in s.codes
    ensures var n := Next(cfg, s, step);
            || (code in n.codes && n.codes[code] == s.codes[code])
            || (code !in n.codes && exists h | h in n.tokens && h !in s.tokens ::
                  n.tokens == s.tokens[h := UserToken(s.codes[code])])
  {
    hide CodesOk, TokensOk, Accounted, PkceOk, Client, Grantable;
    if step.Commit? && step.w in s.open && s.open[step.w].Minted? && s.open[step.w].x.code == code {
      var t := s.open[step.w];
      TxIsOk(cfg, s, step.w);
      assert Next(cfg, s, step).tokens == s.tokens[t.hash := UserToken(s.codes[code])];
      assert t.hash in Next(cfg, s, step).tokens && t.hash !in s.tokens;
    }
  }

  /**
    With no open transaction on the same code or hash, whatever others do to other codes, the
    three steps redeem the code exactly when every check passes.
   */
  lemma UndisturbedExchange(cfg: Config, s: State, w: nat, x: Exchange, now: int, hash: string)
    requires w !in s.open
    requires forall v | v in s.open ::
               && (s.open[v].Granted? || s.open[v].x.code != x.code) && (s.open[v].Consumed? || s.open[v].hash != hash)
    ensures var n := Next(cfg, Next(cfg, Next(cfg, s, Consume(w, x, now)), Mint(w, hash)), Commit(w));
            if Redeemable(cfg, s.codes, x, now) && hash !in s.tokens
            then n.codes == s.codes - {x.code} && n.tokens == s.tokens[hash := UserToken(s.codes[x.code])]
            else n.codes == s.codes && n.tokens == s.tokens
  {
    hide PkceOk, Client, AfterMint, AfterCommit;
    var n := Next(cfg, s, Consume(w, x, now));
    if n != s {
      AloneMints(cfg, s, w, n.open[w], hash);
    } else {
      assert AfterMint(cfg, s, w, hash) == s && AfterCommit(cfg, s, w) == s by {
        NothingOpen(cfg, s, w, hash);
      }
    }
  }

  /** With nobody else on the same token hash, two steps grant an application token exactly when every check passes. */
  lemma UndisturbedGrant(cfg: Config, s: State, w: nat, g: Grant, hash: string)
    requires w !in s.open
    requires forall v | v in s.open :: s.open[v].Consumed? || s.open[v].hash != hash
    ensures var n := Next(cfg, Next(cfg, s, MintApp(w, g, hash)), Commit(w));
            n.codes == s.codes
            && n.tokens == (if Grantable(cfg, g) && hash !in s.tokens then s.tokens[hash := AppToken(cfg, g)]
                            else s.tokens)
  {
    hide Grantable;
  }

  /** An issued code carries what it was issued for and lives for ten minutes. */
  lemma IssuedCodesLiveTenMinutes(cfg: Config, s: State, step: Step)
    requires step.Issue? && step.code !in s.codes
    ensures var row := Code(|s.issued|, step.app, step.actor, step.redirect, step.scopes, step.challenge,
                            step.challengeMethod, step.now + 600_000_000_000);
            Next(cfg, s, step) == s.(codes := s.codes[step.code := row], issued := s.issued + [row])
  {
  }

  /** Only its own next step, commit or rollback changes an open transaction. */
  lemma OpenTransactionsStay(cfg: Config, s: State, step: Step, w: nat)
    requires w in s.open && step !in {Commit(w), Rollback(w)} && !(step.Mint? && step.w == w)
    ensures w in Next(cfg, s, step).open && Next(cfg, s, step).open[w] == s.open[w]
  {
    hide PkceOk, Client, Grantable;
  }

  lemma NothingOpen(cfg: Config, s: State, w: nat, hash: string)
    requires w !in s.open
    ensures AfterMint(cfg, s, w, hash) == s && AfterCommit(cfg, s, w) == s
  {
  }

  lemma AloneMints(cfg: Config, s: State, w: nat, t: Tx, hash: string)
    requires w !in s.open && t.Consumed?
    requires forall v | v in s.open :: s.open[v].Consumed? || s.open[v].hash != hash
    ensures var n := AfterCommit(cfg, AfterMint(cfg, s.(open := s.open[w := t]), w, hash), w);
            if t.row.app == t.app.id && PkceOk(cfg, t.x.verifier, t.row) && hash !in s.tokens
            then n.codes == s.codes - {t.x.code} && n.tokens == s.tokens[hash := UserToken(t.row)]
            else n.codes == s.codes && n.tokens == s.tokens
  {
    hide PkceOk;
    var held := s.(open := s.open[w := t]);
    assert HashTaken(held, hash) <==> hash in s.tokens;
  }
}
