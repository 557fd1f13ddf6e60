/** Refresh-token families (backend/app/services/sessions.py, authentication.py).

    A login opens a family of refresh tokens; each refresh marks the presented
    token used and appends a child.  A used token presented again kills the
    family.  Raw token, keyed digest and row id are one identity here: the
    digest is taken to be injective on the tokens of a run. */
module Sessions {
  import opened Prelude

  type Time = int
  type UserId = nat
  type FamilyId = nat
  type TokenId = nat
  type Thumbprint = nat

  datatype Settings = Settings(idleTtl: nat, absoluteTtl: nat, dpopEnabled: bool)

  datatype RevokeReason = RefreshReuse | InactiveUser | Logout | Provisioning

  datatype Family = Family(
    user: UserId,
    absoluteExpiresAt: Time,
    lastRotatedAt: Option<Time>,
    revokedAt: Option<Time>,
    revokeReason: Option<RevokeReason>,
    boundToKey: bool,
    keyThumbprint: Option<Thumbprint>,
    bindingCreatedAt: Time)

  datatype Token = Token(
    family: FamilyId,
    parent: Option<TokenId>,
    replacedBy: Option<TokenId>,
    expiresAt: Time,
    usedAt: Option<Time>,
    revokedAt: Option<Time>)

  /** A CSRF token is a keyed digest over the family id and a nonce. */
  datatype Csrf = Issued(family: FamilyId, nonce: nat) | Forged(text: nat)

  datatype Credentials = Credentials(
    originAllowed: bool,
    refreshToken: Option<TokenId>,
    csrfCookie: Option<Csrf>,
    csrfHeader: Option<Csrf>,
    keyThumbprint: Option<Thumbprint>)

  datatype SecurityEvent =
    | KeyMismatch(family: FamilyId)
    | ReuseDetected(family: FamilyId)

  datatype Outcome =
    | CsrfRejected
    | Invalid
    | Replay
    | Expired
    | Rotated(family: FamilyId, child: TokenId)
    | LoggedIn(newFamily: FamilyId, firstToken: TokenId)
    | Done

  datatype Server = Server(
    families: map<FamilyId, Family>,
    tokens: map<TokenId, Token>,
    events: seq<SecurityEvent>)

  // ---------------------------------------------------------------- helpers

  function Min(a: Time, b: Time): Time { if a <= b then a else b }

  /** issue_refresh_expiry with an absolute deadline. */
  function RefreshExpiry(cfg: Settings, now: Time, absoluteExpiresAt: Time): Time {
    Min(now + cfg.idleTtl, absoluteExpiresAt)
  }

  /** issue_family_absolute_expiry. */
  function AbsoluteExpiry(cfg: Settings, now: Time): Time { now + cfg.absoluteTtl }

  /** validate_csrf_token: double submit, and the digest is over this family. */
  predicate CsrfValid(c: Credentials, family: FamilyId) {
    c.csrfCookie.Some? && c.csrfHeader == c.csrfCookie &&
    c.csrfCookie.value.Issued? && c.csrfCookie.value.family == family
  }

  predicate BindingMatches(cfg: Settings, f: Family, key: Option<Thumbprint>) {
    !cfg.dpopEnabled || (f.boundToKey && f.keyThumbprint.Some? && f.keyThumbprint == key)
  }

  function Revoke(f: Family, now: Time, reason: RevokeReason): Family {
    f.(revokedAt := Some(now), revokeReason := Some(reason))
  }

  predicate Consumed(t: Token) { t.usedAt.Some? || t.replacedBy.Some? }

  predicate Shown(s: Server, c: Credentials) { c.refreshToken.Some? && c.refreshToken.value in s.tokens }

  function FamilyShown(s: Server, c: Credentials): FamilyId
    requires Shown(s, c)
  {
    s.tokens[c.refreshToken.value].family
  }

  /** The request shows a token of family f with the CSRF value of f. */
  predicate Speaks(s: Server, c: Credentials, f: FamilyId) {
    c.originAllowed && Shown(s, c) && FamilyShown(s, c) == f && f in s.families && CsrfValid(c, f)
  }

  /** And it is made with the key of f. */
  predicate Admitted(cfg: Settings, s: Server, c: Credentials, f: FamilyId) {
    Speaks(s, c, f) && BindingMatches(cfg, s.families[f], c.keyThumbprint)
  }

  /** And f is neither revoked nor past its deadline. */
  predicate AdmittedLive(cfg: Settings, s: Server, c: Credentials, now: Time, f: FamilyId) {
    Admitted(cfg, s, c, f) && s.families[f].revokedAt.None? && now < s.families[f].absoluteExpiresAt
  }

  // ------------------------------------------------- one transaction each

  /** _validate_family_binding: may log a mismatch, and stamps last_rotated_at
      whenever key binding is on and the key matches. */
  function Bind(cfg: Settings, s: Server, id: FamilyId, key: Option<Thumbprint>, now: Time): Server
    requires id in s.families
  {
    var f := s.families[id];
    if !cfg.dpopEnabled then s
    else if !BindingMatches(cfg, f, key) then s.(events := s.events + [KeyMismatch(id)])
    else s.(families := s.families[id := f.(lastRotatedAt := Some(now))])
  }

  function LoginStep(cfg: Settings, s: Server, user: UserId, key: Option<Thumbprint>, now: Time,
                     family: FamilyId, token: TokenId): Server
  {
    var absolute := AbsoluteExpiry(cfg, now);
    Server(
      s.families[family := Family(user, absolute, None, None, None, key.Some?, key, now)],
      s.tokens[token := Token(family, None, None, RefreshExpiry(cfg, now, absolute), None, None)],
      s.events)
  }

  /** A CSRF error is raised inside the transaction and rolls it back. */
  function RefreshStep(cfg: Settings, s: Server, c: Credentials, userActive: bool, now: Time,
                       childId: TokenId): (Server, Outcome)
  {
    if !c.originAllowed then (s, CsrfRejected)
    else if c.refreshToken.None? || c.refreshToken.value !in s.tokens then (s, Invalid)
    else
      var id := c.refreshToken.value;
      var t := s.tokens[id];
      if t.family !in s.families then (s, Invalid)
      else if !CsrfValid(c, t.family) then (s, CsrfRejected)
      else
        var b := Bind(cfg, s, t.family, c.keyThumbprint, now);
        var f := b.families[t.family];
        if !BindingMatches(cfg, f, c.keyThumbprint) then (b, Invalid)
        else if f.revokedAt.Some? || f.absoluteExpiresAt <= now || t.revokedAt.Some? then (b, Invalid)
        else if Consumed(t) then
          (b.(families := b.families[t.family := Revoke(f, now, RefreshReuse)],
              events := b.events + [ReuseDetected(t.family)]),
           Replay)
        else if t.expiresAt <= now then (b, Expired)
        else if !userActive then
          (b.(families := b.families[t.family := Revoke(f, now, InactiveUser)]), Invalid)
        else
          (AfterRotation(cfg, b, id, childId, now),
           Rotated(t.family, childId))
  }

  function LogoutStep(cfg: Settings, s: Server, c: Credentials, now: Time): (Server, Outcome) {
    if !c.originAllowed then (s, CsrfRejected)
    else if c.refreshToken.None? || c.refreshToken.value !in s.tokens then (s, Done)
    else
      var t := s.tokens[c.refreshToken.value];
      if t.family !in s.families then (s, Done)
      else if !CsrfValid(c, t.family) then (s, CsrfRejected)
      else
        var b := Bind(cfg, s, t.family, c.keyThumbprint, now);
        var f := b.families[t.family];
        if BindingMatches(cfg, f, c.keyThumbprint) && f.revokedAt.None? then
          (b.(families := b.families[t.family := Revoke(f, now, Logout)]), Done)
        else (b, Done)
  }

  /** _revoke_active_families_for_user. */
  function RevokeUserStep(s: Server, user: UserId, now: Time): Server {
    s.(families := map id | id in s.families ::
         if s.families[id].user == user && s.families[id].revokedAt.None?
         then Revoke(s.families[id], now, Provisioning) else s.families[id])
  }

  // ------------------------------------------------ the service, in place

  class SessionsService {
    const cfg: Settings
    var families: map<FamilyId, Family>
    var tokens: map<TokenId, Token>
    var events: seq<SecurityEvent>

    function View(): Server
      reads this
    {
      Server(families, tokens, events)
    }

    constructor (cfg: Settings)
      ensures this.cfg == cfg && View() == Server(map[], map[], [])
    {
      this.cfg := cfg;
      families, tokens, events := map[], map[], [];
    }

    method ValidateFamilyBinding(id: FamilyId, key: Option<Thumbprint>, now: Time) returns (ok: bool)
      requires id in families
      modifies this
      ensures View() == Bind(cfg, old(View()), id, key, now)
      ensures ok == BindingMatches(cfg, old(families[id]), key)
    {
      if !cfg.dpopEnabled {
        return true;
      }
      var f := families[id];
      if !f.boundToKey || f.keyThumbprint.None? || f.keyThumbprint != key {
        events := events + [KeyMismatch(id)];
        return false;
      }
      families := families[id := f.(lastRotatedAt := Some(now))];
      return true;
    }

    /** Both new rows get identities the tables do not hold yet. */
    method Login(user: UserId, key: Option<Thumbprint>, now: Time, family: FamilyId, token: TokenId)
      requires family !in families && token !in tokens
      modifies this
      ensures View() == LoginStep(cfg, old(View()), user, key, now, family, token)
    {
      var f := Family(user, AbsoluteExpiry(cfg, now), None, None, None, false, None, 0);
      f := f.(boundToKey := key.Some?, keyThumbprint := key, bindingCreatedAt := now);
      families := families[family := f];
      var expiry := RefreshExpiry(cfg, now, f.absoluteExpiresAt);
      tokens := tokens[token := Token(family, None, None, expiry, None, None)];
    }

    method Refresh(c: Credentials, userActive: bool, now: Time, childId: TokenId) returns (outcome: Outcome)
      requires childId !in tokens
      modifies this
      ensures (View(), outcome) == RefreshStep(cfg, old(View()), c, userActive, now, childId)
    {
      if !c.originAllowed { return CsrfRejected; }
      if c.refreshToken.None? || c.refreshToken.value !in tokens { return Invalid; }
      var id := c.refreshToken.value;
      var t := tokens[id];
      if t.family !in families { return Invalid; }
      if !CsrfValid(c, t.family) { return CsrfRejected; }
      var bound := ValidateFamilyBinding(t.family, c.keyThumbprint, now);
      if !bound { return Invalid; }
      var f := families[t.family];
      if f.revokedAt.Some? || f.absoluteExpiresAt <= now || t.revokedAt.Some? { return Invalid; }
      if t.usedAt.Some? || t.replacedBy.Some? {
        families := families[t.family := Revoke(f, now, RefreshReuse)];
        events := events + [ReuseDetected(t.family)];
        return Replay;
      }
      if t.expiresAt <= now { return Expired; }
      if !userActive {
        families := families[t.family := Revoke(f, now, InactiveUser)];
        return Invalid;
      }
      var expiry := RefreshExpiry(cfg, now, f.absoluteExpiresAt);
      tokens := tokens[childId := Token(t.family, Some(id), None, expiry, None, None)];
      tokens := tokens[id := t.(usedAt := Some(now), replacedBy := Some(childId))];
      families := families[t.family := f.(lastRotatedAt := Some(now))];
      return Rotated(t.family, childId);
    }

    method Logout(c: Credentials, now: Time) returns (outcome: Outcome)
      modifies this
      ensures (View(), outcome) == LogoutStep(cfg, old(View()), c, now)
    {
      if !c.originAllowed { return CsrfRejected; }
      if c.refreshToken.None? || c.refreshToken.value !in tokens { return Done; }
      var t := tokens[c.refreshToken.value];
      if t.family !in families { return Done; }
      if !CsrfValid(c, t.family) { return CsrfRejected; }
      var bound := ValidateFamilyBinding(t.family, c.keyThumbprint, now);
      if !bound { return Done; }
      var f := families[t.family];
      if f.revokedAt.None? {
        families := families[t.family := Revoke(f, now, RevokeReason.Logout)];
      }
      return Done;
    }
  }

  // ------------------------------------------------------------------ runs

  datatype Op =
    | OpLogin(user: UserId, key: Option<Thumbprint>, now: Time, family: FamilyId, token: TokenId)
    | OpRefresh(c: Credentials, userActive: bool, now: Time, childId: TokenId)
    | OpLogout(c: Credentials, now: Time)
    | OpRevokeUser(user: UserId, now: Time)

  const EMPTY: Server := Server(map[], map[], [])

  /** New identities are new: the digest, the jti and the primary keys are unique. */
  predicate Enabled(s: Server, op: Op) {
    match op
    case OpLogin(_, _, _, family, token) => family !in s.families && token !in s.tokens
    case OpRefresh(_, _, _, childId) => childId !in s.tokens
    case _ => true
  }

  function Exec(cfg: Settings, s: Server, op: Op): (Server, Outcome) {
    match op
    case OpLogin(user, key, now, family, token) =>
      (LoginStep(cfg, s, user, key, now, family, token), LoggedIn(family, token))
    case OpRefresh(c, active, now, childId) => RefreshStep(cfg, s, c, active, now, childId)
    case OpLogout(c, now) => LogoutStep(cfg, s, c, now)
    case OpRevokeUser(user, now) => (RevokeUserStep(s, user, now), Done)
  }

  function Run(cfg: Settings, s: Server, ops: seq<Op>): Server
    decreases |ops|
  {
    if ops == [] then s else Run(cfg, Exec(cfg, s, ops[0]).0, ops[1..])
  }

  predicate Legal(cfg: Settings, s: Server, ops: seq<Op>)
    decreases |ops|
  {
    ops == [] || (Enabled(s, ops[0]) && Legal(cfg, Exec(cfg, s, ops[0]).0, ops[1..]))
  }

  /** The outcome of the i-th transaction of a run. */
  function OutcomeAt(cfg: Settings, s: Server, ops: seq<Op>, i: nat): Outcome
    requires i < |ops|
    decreases i
  {
    if i == 0 then Exec(cfg, s, ops[0]).1
    else OutcomeAt(cfg, Exec(cfg, s, ops[0]).0, ops[1..], i - 1)
  }

  /** The family and token an operation rotates, if it does. */
  predicate Rotates(cfg: Settings, s: Server, ops: seq<Op>, i: nat, t: TokenId) {
    i < |ops| && ops[i].OpRefresh? && ops[i].c.refreshToken == Some(t) && OutcomeAt(cfg, s, ops, i).Rotated?
  }

  // ------------------------------------------------- the family invariant

  /** `chain` lists all tokens of family `f`, oldest first: links agree in both
      directions, everything but the last is used, every expiry is the clipped
      one, and every use came before the expiry of the token used. */
  ghost predicate IsChain(cfg: Settings, s: Server, f: FamilyId, chain: seq<TokenId>)
    requires f in s.families
  {
    && chain != []
    && (forall i :: 0 <= i < |chain| ==> chain[i] in s.tokens && s.tokens[chain[i]].family == f)
    && (forall i, j :: 0 <= i < j < |chain| ==> chain[i] != chain[j])
    && (forall t :: t in s.tokens && s.tokens[t].family == f ==> t in chain)
    && (forall i :: 0 <= i < |chain| ==> LinkOk(cfg, s, f, chain, i))
  }

  ghost predicate LinkOk(cfg: Settings, s: Server, f: FamilyId, chain: seq<TokenId>, i: nat)
    requires f in s.families && i < |chain|
    requires forall k :: 0 <= k < |chain| ==> chain[k] in s.tokens
  {
    var t := s.tokens[chain[i]];
    var fam := s.families[f];
    && t.parent == (if i == 0 then None else Some(chain[i - 1]))
    && t.replacedBy == (if i + 1 == |chain| then None else Some(chain[i + 1]))
    && t.usedAt.Some? == (i + 1 < |chain|)
    && t.revokedAt.None?
    && (t.usedAt.Some? ==> t.usedAt.value < t.expiresAt)
    && (i == 0 ==> t.expiresAt == RefreshExpiry(cfg, fam.bindingCreatedAt, fam.absoluteExpiresAt))
    && (0 < i ==> s.tokens[chain[i - 1]].usedAt.Some? &&
                  t.expiresAt == RefreshExpiry(cfg, s.tokens[chain[i - 1]].usedAt.value, fam.absoluteExpiresAt))
  }

  /** Every family has its chain, recorded in `chains`. */
  ghost predicate Inv(cfg: Settings, s: Server, chains: map<FamilyId, seq<TokenId>>) {
    && chains.Keys == s.families.Keys
    && (forall t :: t in s.tokens ==> s.tokens[t].family in s.families)
    && (forall f :: f in s.families ==> s.families[f].absoluteExpiresAt == AbsoluteExpiry(cfg, s.families[f].bindingCreatedAt))
    && (forall f :: f in s.families ==> IsChain(cfg, s, f, chains[f]))
  }

  /** How one transaction extends the chains. */
  ghost function NextChains(chains: map<FamilyId, seq<TokenId>>, o: Outcome): map<FamilyId, seq<TokenId>> {
    match o
    case LoggedIn(family, token) => chains[family := [token]]
    case Rotated(family, child) => if family in chains then chains[family := chains[family] + [child]] else chains
    case _ => chains
  }

  /** A change that touches only revocation and stamps keeps every chain. */
  lemma ChainsSurviveFamilyStamps(cfg: Settings, s: Server, s': Server, chains: map<FamilyId, seq<TokenId>>)
    requires Inv(cfg, s, chains)
    requires OnlyStamps(s, s')
    ensures Inv(cfg, s', chains)
  {
    forall f | f in s'.families
      ensures IsChain(cfg, s', f, chains[f])
    {
      assert IsChain(cfg, s, f, chains[f]);
      forall i | 0 <= i < |chains[f]| ensures LinkOk(cfg, s', f, chains[f], i) {
        assert LinkOk(cfg, s, f, chains[f], i);
      }
    }
  }

  lemma NewFamilyIsChain(cfg: Settings, s: Server, user: UserId, key: Option<Thumbprint>, now: Time, family: FamilyId, token: TokenId)
    requires token !in s.tokens && forall t :: t in s.tokens ==> s.tokens[t].family != family
    ensures IsChain(cfg, LoginStep(cfg, s, user, key, now, family, token), family, [token])
  {
    assert LinkOk(cfg, LoginStep(cfg, s, user, key, now, family, token), family, [token], 0);
  }

  lemma LoginKeepsInv(cfg: Settings, s: Server, chains: map<FamilyId, seq<TokenId>>,
                      user: UserId, key: Option<Thumbprint>, now: Time, family: FamilyId, token: TokenId)
    requires Inv(cfg, s, chains) && family !in s.families && token !in s.tokens
    ensures Inv(cfg, LoginStep(cfg, s, user, key, now, family, token), chains[family := [token]])
  {
    var s' := LoginStep(cfg, s, user, key, now, family, token);
    var chains' := chains[family := [token]];
    forall f | f in s'.families ensures IsChain(cfg, s', f, chains'[f]) {
      if f == family {
        NewFamilyIsChain(cfg, s, user, key, now, family, token);
      } else {
        assert IsChain(cfg, s, f, chains[f]);
        LoginLeavesChain(cfg, s, s', f, chains[f]);
      }
    }
  }

  /** New rows leave a chain alone. */
  lemma LoginLeavesChain(cfg: Settings, s: Server, s': Server, f: FamilyId, chain: seq<TokenId>)
    requires f in s.families && IsChain(cfg, s, f, chain)
    requires f in s'.families && s'.families[f] == s.families[f]
    requires forall t :: t in s.tokens ==> t in s'.tokens && s'.tokens[t] == s.tokens[t]
    requires forall t :: t in s'.tokens && t !in s.tokens ==> s'.tokens[t].family != f
    ensures IsChain(cfg, s', f, chain)
  {
    forall i | 0 <= i < |chain| ensures LinkOk(cfg, s', f, chain, i) {
      assert LinkOk(cfg, s, f, chain, i);
    }
  }

  /** In a well-linked table a token that is not consumed is the last of its chain. */
  lemma UnconsumedIsHead(cfg: Settings, s: Server, chains: map<FamilyId, seq<TokenId>>, id: TokenId)
    requires Inv(cfg, s, chains) && id in s.tokens
    ensures var chain := chains[s.tokens[id].family];
            !Consumed(s.tokens[id]) <==> id == chain[|chain| - 1]
  {
    var f := s.tokens[id].family;
    var chain := chains[f];
    assert IsChain(cfg, s, f, chain);
    var i :| 0 <= i < |chain| && chain[i] == id;
    assert LinkOk(cfg, s, f, chain, i);
  }

  /** Tokens are never revoked one by one. */
  lemma TokenIsUnrevoked(cfg: Settings, s: Server, chains: map<FamilyId, seq<TokenId>>, id: TokenId)
    requires Inv(cfg, s, chains) && id in s.tokens
    ensures s.tokens[id].revokedAt.None?
  {
    var f := s.tokens[id].family;
    assert IsChain(cfg, s, f, chains[f]);
    var i :| 0 <= i < |chains[f]| && chains[f][i] == id;
    assert LinkOk(cfg, s, f, chains[f], i);
  }

  /** The table after token `id` rotated into `childId`. */
  function AfterRotation(cfg: Settings, s: Server, id: TokenId, childId: TokenId, now: Time): Server
    requires id in s.tokens && s.tokens[id].family in s.families
  {
    var t := s.tokens[id];
    var f := s.families[t.family];
    var child := Token(t.family, Some(id), None, RefreshExpiry(cfg, now, f.absoluteExpiresAt), None, None);
    Server(s.families[t.family := f.(lastRotatedAt := Some(now))],
           s.tokens[childId := child][id := t.(usedAt := Some(now), replacedBy := Some(childId))],
           s.events)
  }

  /** Rotation in one family leaves the chain of another alone. */
  lemma RotationKeepsOtherChain(cfg: Settings, s: Server, id: TokenId, childId: TokenId, now: Time,
                                f: FamilyId, chain: seq<TokenId>)
    requires id in s.tokens && s.tokens[id].family in s.families && childId !in s.tokens
    requires f in s.families && f != s.tokens[id].family && IsChain(cfg, s, f, chain)
    ensures IsChain(cfg, AfterRotation(cfg, s, id, childId, now), f, chain)
  {
    var s' := AfterRotation(cfg, s, id, childId, now);
    assert forall i :: 0 <= i < |chain| ==> s'.tokens[chain[i]] == s.tokens[chain[i]];
    forall i | 0 <= i < |chain| ensures LinkOk(cfg, s', f, chain, i) {
      assert LinkOk(cfg, s, f, chain, i);
    }
  }

  /** Rotation of the head appends the child to its own chain. */
  lemma RotationExtendsChain(cfg: Settings, s: Server, id: TokenId, childId: TokenId, now: Time,
                             chain: seq<TokenId>)
    requires id in s.tokens && s.tokens[id].family in s.families && childId !in s.tokens
    requires IsChain(cfg, s, s.tokens[id].family, chain)
    requires chain[|chain| - 1] == id && now < s.tokens[id].expiresAt
    ensures IsChain(cfg, AfterRotation(cfg, s, id, childId, now), s.tokens[id].family, chain + [childId])
  {
    var s' := AfterRotation(cfg, s, id, childId, now);
    var f := s.tokens[id].family;
    var chain' := chain + [childId];
    var last := |chain| - 1;
    forall t | t in s'.tokens && s'.tokens[t].family == f ensures t in chain' {
      if t != childId { assert t in chain; }
    }
    forall i | 0 <= i < |chain'| ensures LinkOk(cfg, s', f, chain', i) {
      if i < last {
        assert LinkOk(cfg, s, f, chain, i);
        assert s'.tokens[chain'[i]] == s.tokens[chain[i]];
        if i > 0 { assert s'.tokens[chain'[i - 1]] == s.tokens[chain[i - 1]]; }
      } else if i == last {
        assert LinkOk(cfg, s, f, chain, i);
        if i > 0 { assert s'.tokens[chain'[i - 1]] == s.tokens[chain[i - 1]]; }
      }
    }
  }

  lemma RotationKeepsInv(cfg: Settings, s: Server, chains: map<FamilyId, seq<TokenId>>,
                         id: TokenId, childId: TokenId, now: Time)
    requires Inv(cfg, s, chains) && id in s.tokens && childId !in s.tokens
    requires !Consumed(s.tokens[id]) && now < s.tokens[id].expiresAt
    ensures var f := s.tokens[id].family;
            Inv(cfg, AfterRotation(cfg, s, id, childId, now), chains[f := chains[f] + [childId]])
  {
    var own := s.tokens[id].family;
    var s' := AfterRotation(cfg, s, id, childId, now);
    var chains' := chains[own := chains[own] + [childId]];
    UnconsumedIsHead(cfg, s, chains, id);
    forall f | f in s'.families ensures IsChain(cfg, s', f, chains'[f]) {
      if f == own {
        RotationExtendsChain(cfg, s, id, childId, now, chains[f]);
      } else {
        RotationKeepsOtherChain(cfg, s, id, childId, now, f, chains[f]);
      }
    }
  }

  /** Only revocation and rotation stamps differ. */
  ghost predicate OnlyStamps(s: Server, s': Server) {
    && s'.tokens == s.tokens && s'.families.Keys == s.families.Keys
    && forall f :: f in s.families ==>
         s'.families[f].absoluteExpiresAt == s.families[f].absoluteExpiresAt &&
         s'.families[f].bindingCreatedAt == s.families[f].bindingCreatedAt
  }

  /** A refresh either rotates the presented, unconsumed token after stamping
      its family, or touches nothing but stamps. */
  lemma RefreshShape(cfg: Settings, s: Server, c: Credentials, active: bool, now: Time, childId: TokenId)
    ensures var (s', o) := RefreshStep(cfg, s, c, active, now, childId);
            && !o.LoggedIn?
            && (!o.Rotated? ==> OnlyStamps(s, s'))
            && (o.Rotated? ==>
                  && c.refreshToken.Some? && c.refreshToken.value in s.tokens
                  && var id := c.refreshToken.value;
                     var f := s.tokens[id].family;
                     && f in s.families && o == Rotated(f, childId)
                     && !Consumed(s.tokens[id]) && now < s.tokens[id].expiresAt
                     && s.families[f].revokedAt.None?
                     && var b := Bind(cfg, s, f, c.keyThumbprint, now);
                        && OnlyStamps(s, b)
                        && s' == AfterRotation(cfg, b, id, childId, now))
  {
  }

  lemma RefreshKeepsInv(cfg: Settings, s: Server, chains: map<FamilyId, seq<TokenId>>,
                        c: Credentials, b: Server, now: Time, childId: TokenId, id: TokenId)
    requires Inv(cfg, s, chains) && OnlyStamps(s, b)
    requires id in s.tokens && childId !in s.tokens
    requires !Consumed(s.tokens[id]) && now < s.tokens[id].expiresAt
    ensures id in b.tokens && b.tokens[id].family in b.families
    ensures var f := s.tokens[id].family;
            f in chains && Inv(cfg, AfterRotation(cfg, b, id, childId, now), chains[f := chains[f] + [childId]])
  {
    ChainsSurviveFamilyStamps(cfg, s, b, chains);
    RotationKeepsInv(cfg, b, chains, id, childId, now);
  }

  /** One transaction of any caller keeps every family a chain. */
  lemma StepKeepsInv(cfg: Settings, s: Server, op: Op, chains: map<FamilyId, seq<TokenId>>)
    requires Inv(cfg, s, chains) && Enabled(s, op)
    ensures Inv(cfg, Exec(cfg, s, op).0, NextChains(chains, Exec(cfg, s, op).1))
  {
    var (s', o) := Exec(cfg, s, op);
    if op.OpLogin? {
      LoginKeepsInv(cfg, s, chains, op.user, op.key, op.now, op.family, op.token);
    } else if o.Rotated? {
      RefreshShape(cfg, s, op.c, op.userActive, op.now, op.childId);
      var id := op.c.refreshToken.value;
      RefreshKeepsInv(cfg, s, chains, op.c, Bind(cfg, s, s.tokens[id].family, op.c.keyThumbprint, op.now), op.now, op.childId, id);
    } else {
      OtherStepsOnlyStamp(cfg, s, op);
      ChainsSurviveFamilyStamps(cfg, s, s', chains);
    }
  }

  lemma OtherStepsOnlyStamp(cfg: Settings, s: Server, op: Op)
    requires !op.OpLogin? && !Exec(cfg, s, op).1.Rotated?
    ensures OnlyStamps(s, Exec(cfg, s, op).0) && !Exec(cfg, s, op).1.LoggedIn?
  {
  }

  // ---------------------------------------------------------- main results

  lemma {:induction false} RunKeepsInv(cfg: Settings, s: Server, ops: seq<Op>, chains: map<FamilyId, seq<TokenId>>)
    returns (chains': map<FamilyId, seq<TokenId>>)
    requires Inv(cfg, s, chains) && Legal(cfg, s, ops)
    ensures Inv(cfg, Run(cfg, s, ops), chains')
    decreases |ops|
  {
    if ops == [] {
      chains' := chains;
    } else {
      StepKeepsInv(cfg, s, ops[0], chains);
      chains' := RunKeepsInv(cfg, Exec(cfg, s, ops[0]).0, ops[1..], NextChains(chains, Exec(cfg, s, ops[0]).1));
    }
  }

  /** In every reachable state each family is one parent-to-child chain that
      holds all its tokens; only the last is unused. */
  lemma FamiliesAreChains(cfg: Settings, ops: seq<Op>, f: FamilyId)
    requires Legal(cfg, EMPTY, ops) && f in Run(cfg, EMPTY, ops).families
    ensures exists chain :: IsChain(cfg, Run(cfg, EMPTY, ops), f, chain)
  {
    var chains := RunKeepsInv(cfg, EMPTY, ops, map[]);
    assert IsChain(cfg, Run(cfg, EMPTY, ops), f, chains[f]);
  }

  /** Along a chain: expiries never pass the absolute deadline, each rotation
      happens less than the idle lifetime after the previous one (or after the
      login), and all of them before the absolute deadline. */
  lemma RotationSpacing(cfg: Settings, s: Server, f: FamilyId, chain: seq<TokenId>, i: nat)
    requires f in s.families && IsChain(cfg, s, f, chain) && i < |chain|
    ensures s.tokens[chain[i]].expiresAt <= s.families[f].absoluteExpiresAt
    ensures 0 < i ==> s.tokens[chain[i - 1]].usedAt.Some?
    ensures s.tokens[chain[i]].usedAt.Some? ==>
      var used := s.tokens[chain[i]].usedAt.value;
      var since := if i == 0 then s.families[f].bindingCreatedAt else s.tokens[chain[i - 1]].usedAt.value;
      used < since + cfg.idleTtl && used < s.families[f].absoluteExpiresAt
  {
    assert LinkOk(cfg, s, f, chain, i);
  }

  /** So no family rotates later than its login plus the absolute lifetime. */
  lemma RotationBeforeDeadline(cfg: Settings, ops: seq<Op>, t: TokenId)
    requires Legal(cfg, EMPTY, ops) && t in Run(cfg, EMPTY, ops).tokens
    ensures var s := Run(cfg, EMPTY, ops);
            var tok := s.tokens[t];
            && tok.family in s.families
            && tok.expiresAt <= s.families[tok.family].bindingCreatedAt + cfg.absoluteTtl
            && (tok.usedAt.Some? ==> tok.usedAt.value < s.families[tok.family].bindingCreatedAt + cfg.absoluteTtl)
  {
    var s := Run(cfg, EMPTY, ops);
    var chains := RunKeepsInv(cfg, EMPTY, ops, map[]);
    var f := s.tokens[t].family;
    assert IsChain(cfg, s, f, chains[f]);
    var i :| 0 <= i < |chains[f]| && chains[f][i] == t;
    RotationSpacing(cfg, s, f, chains[f], i);
  }

  /** What no transaction undoes. */
  lemma StepIsMonotone(cfg: Settings, s: Server, op: Op, t: TokenId, f: FamilyId)
    requires Enabled(s, op)
    ensures var s' := Exec(cfg, s, op).0;
            && (t in s.tokens ==> t in s'.tokens && s'.tokens[t].family == s.tokens[t].family)
            && (t in s.tokens && Consumed(s.tokens[t]) ==> Consumed(s'.tokens[t]) && s'.tokens[t].usedAt == s.tokens[t].usedAt)
            && (f in s.families ==> f in s'.families)
            && (f in s.families && s.families[f].revokedAt.Some? ==> s'.families[f].revokedAt == s.families[f].revokedAt)
  {
    // every transaction writes one family row and at most one unused token row
  }

  /** A token that is consumed, or whose family is revoked, cannot rotate. */
  ghost predicate Spent(s: Server, t: TokenId) {
    t in s.tokens &&
    (Consumed(s.tokens[t]) ||
     (s.tokens[t].family in s.families && s.families[s.tokens[t].family].revokedAt.Some?))
  }

  lemma {:induction false} SpentNeverRotates(cfg: Settings, s: Server, ops: seq<Op>, t: TokenId, i: nat)
    requires Legal(cfg, s, ops) && i < |ops| && Spent(s, t)
    ensures !Rotates(cfg, s, ops, i, t)
    decreases |ops|
  {
    if i > 0 {
      StepIsMonotone(cfg, s, ops[0], t, s.tokens[t].family);
      SpentNeverRotates(cfg, Exec(cfg, s, ops[0]).0, ops[1..], t, i - 1);
    }
  }

  /** Every refresh token yields at most one `rotated` over a whole run. */
  lemma {:induction false} AtMostOneRotation(cfg: Settings, s: Server, ops: seq<Op>, t: TokenId, i: nat, j: nat)
    requires Legal(cfg, s, ops) && i < j
    ensures !(Rotates(cfg, s, ops, i, t) && Rotates(cfg, s, ops, j, t))
    decreases |ops|
  {
    if j < |ops| {
      var s' := Exec(cfg, s, ops[0]).0;
      if i > 0 {
        AtMostOneRotation(cfg, s', ops[1..], t, i - 1, j - 1);
      } else if Rotates(cfg, s, ops, 0, t) {
        SpentNeverRotates(cfg, s', ops[1..], t, j - 1);
      }
    }
  }

  /** A revoked family stays revoked, and no token of it rotates. */
  lemma {:induction false} DeadFamilyNeverRotates(cfg: Settings, s: Server, ops: seq<Op>, f: FamilyId, i: nat, child: TokenId)
    requires Legal(cfg, s, ops) && i < |ops|
    requires f in s.families && s.families[f].revokedAt.Some?
    ensures OutcomeAt(cfg, s, ops, i) != Rotated(f, child)
    ensures OutcomeAt(cfg, s, ops, i).LoggedIn? ==> OutcomeAt(cfg, s, ops, i).newFamily != f
    decreases |ops|
  {
    if i > 0 {
      StepIsMonotone(cfg, s, ops[0], 0, f);
      DeadFamilyNeverRotates(cfg, Exec(cfg, s, ops[0]).0, ops[1..], f, i - 1, child);
    }
  }

  /** Once any transaction answers `replay` for a token of family f (or f is
      revoked for any other reason), no later transaction rotates a token of f. */
  lemma {:induction false} ReplayKillsFamily(cfg: Settings, s: Server, ops: seq<Op>, i: nat, j: nat, child: TokenId)
    requires Legal(cfg, s, ops) && i < j < |ops|
    requires ops[i].OpRefresh? && OutcomeAt(cfg, s, ops, i) == Replay
    ensures ops[i].c.refreshToken.Some?
    ensures var presented := Run(cfg, s, ops[..i]).tokens;
            ops[i].c.refreshToken.value in presented &&
            OutcomeAt(cfg, s, ops, j) != Rotated(presented[ops[i].c.refreshToken.value].family, child)
    decreases |ops|
  {
    var s' := Exec(cfg, s, ops[0]).0;
    if i == 0 {
      var f := s.tokens[ops[0].c.refreshToken.value].family;
      assert s'.families[f].revokedAt.Some?;
      DeadFamilyNeverRotates(cfg, s', ops[1..], f, j - 1, child);
      assert Run(cfg, s, ops[..0]) == s;
    } else {
      ReplayKillsFamily(cfg, s', ops[1..], i - 1, j - 1, child);
      assert ops[..i][1..] == ops[1..][..i - 1];
    }
  }

  /** A family found revoked after any step of a run is dead for the rest of it. */
  lemma {:induction false} RevokedStaysDead(cfg: Settings, s: Server, ops: seq<Op>, i: nat, j: nat, f: FamilyId, child: TokenId)
    requires Legal(cfg, s, ops) && i <= j < |ops|
    requires f in Run(cfg, s, ops[..i]).families && Run(cfg, s, ops[..i]).families[f].revokedAt.Some?
    ensures OutcomeAt(cfg, s, ops, j) != Rotated(f, child)
    decreases |ops|
  {
    if i == 0 {
      assert Run(cfg, s, ops[..0]) == s;
      DeadFamilyNeverRotates(cfg, s, ops, f, j, child);
    } else {
      assert ops[..i][1..] == ops[1..][..i - 1];
      RevokedStaysDead(cfg, Exec(cfg, s, ops[0]).0, ops[1..], i - 1, j - 1, f, child);
    }
  }

  /** Logout revokes exactly the family of the token it shows, a used one
      included, if the CSRF value is the family's and the key is accepted; it
      creates and uses up no token, and every other family stays as it is. */
  lemma LogoutRevokesExactly(cfg: Settings, s: Server, c: Credentials, now: Time, f: FamilyId)
    requires f in s.families
    ensures var s' := LogoutStep(cfg, s, c, now).0;
      && s'.tokens == s.tokens && f in s'.families
      && (s'.families[f].revokedAt.Some? <==> s.families[f].revokedAt.Some? || Admitted(cfg, s, c, f))
      && (Admitted(cfg, s, c, f) && s.families[f].revokedAt.None? ==>
            s'.families[f].revokedAt == Some(now) && s'.families[f].revokeReason == Some(RevokeReason.Logout))
      && SameFamily(s.families[f], s'.families[f])
      && (!Admitted(cfg, s, c, f) ==> s'.families[f] == s.families[f])
  {
  }

  /** A family keeps its owner, its deadline and its key; a revocation is never
      rewritten. */
  predicate SameFamily(f: Family, f': Family) {
    && f'.user == f.user && f'.absoluteExpiresAt == f.absoluteExpiresAt && f'.bindingCreatedAt == f.bindingCreatedAt
    && f'.boundToKey == f.boundToKey && f'.keyThumbprint == f.keyThumbprint
    && (f.revokedAt.Some? ==> f'.revokedAt == f.revokedAt && f'.revokeReason == f.revokeReason)
  }

  /** No transaction changes whose family it is, its deadline or its key. */
  lemma StepKeepsFamily(cfg: Settings, s: Server, op: Op, f: FamilyId)
    requires Enabled(s, op) && f in s.families
    ensures f in Exec(cfg, s, op).0.families && SameFamily(s.families[f], Exec(cfg, s, op).0.families[f])
  {
  }

  /** Revoking a user revokes exactly that user's families. */
  lemma RevokeUserExactly(s: Server, user: UserId, now: Time, f: FamilyId)
    requires f in s.families
    ensures var s' := RevokeUserStep(s, user, now);
      && s'.tokens == s.tokens && f in s'.families
      && (s'.families[f].revokedAt.Some? <==> s.families[f].revokedAt.Some? || s.families[f].user == user)
      && SameFamily(s.families[f], s'.families[f])
      && (s.families[f].user != user ==> s'.families[f] == s.families[f])
  {
  }

  ghost function Head(chains: map<FamilyId, seq<TokenId>>, f: FamilyId): TokenId
    requires f in chains && chains[f] != []
  {
    chains[f][|chains[f]| - 1]
  }

  /** A live family is shown a token that is not its head. */
  ghost predicate Reused(cfg: Settings, s: Server, chains: map<FamilyId, seq<TokenId>>, c: Credentials, now: Time, f: FamilyId)
    requires Inv(cfg, s, chains)
  {
    AdmittedLive(cfg, s, c, now, f) && c.refreshToken.value != Head(chains, f)
  }

  /** A live family is shown its head in time. */
  ghost predicate Timely(cfg: Settings, s: Server, chains: map<FamilyId, seq<TokenId>>, c: Credentials, now: Time, f: FamilyId)
    requires Inv(cfg, s, chains)
  {
    && AdmittedLive(cfg, s, c, now, f) && c.refreshToken.value == Head(chains, f)
    && now < s.tokens[c.refreshToken.value].expiresAt
  }

  lemma PresentedFacts(cfg: Settings, s: Server, chains: map<FamilyId, seq<TokenId>>, id: TokenId)
    requires Inv(cfg, s, chains) && id in s.tokens
    ensures var f := s.tokens[id].family;
      && f in s.families && IsChain(cfg, s, f, chains[f]) && s.tokens[id].revokedAt.None?
      && (!Consumed(s.tokens[id]) <==> id == Head(chains, f))
  {
    UnconsumedIsHead(cfg, s, chains, id);
    TokenIsUnrevoked(cfg, s, chains, id);
  }

  /** A replay answer is given exactly when a token that is not the head of its
      live family arrives with valid CSRF and key evidence. */
  lemma ReplayExactly(cfg: Settings, s: Server, chains: map<FamilyId, seq<TokenId>>,
                      c: Credentials, userActive: bool, now: Time, childId: TokenId)
    requires Inv(cfg, s, chains)
    ensures RefreshStep(cfg, s, c, userActive, now, childId).1 == Replay <==>
              Shown(s, c) && Reused(cfg, s, chains, c, now, FamilyShown(s, c))
  {
    if Shown(s, c) { PresentedFacts(cfg, s, chains, c.refreshToken.value); }
  }

  /** And a rotation is answered exactly when the head of a live, unexpired
      family arrives in time, with valid evidence, for an active user. */
  lemma RotatedExactly(cfg: Settings, s: Server, chains: map<FamilyId, seq<TokenId>>,
                       c: Credentials, userActive: bool, now: Time, childId: TokenId)
    requires Inv(cfg, s, chains)
    ensures RefreshStep(cfg, s, c, userActive, now, childId).1.Rotated? <==>
              Shown(s, c) && userActive && Timely(cfg, s, chains, c, now, FamilyShown(s, c))
  {
    if Shown(s, c) { PresentedFacts(cfg, s, chains, c.refreshToken.value); }
  }

  /** The remaining answers, exactly. */
  lemma RefusedExactly(cfg: Settings, s: Server, chains: map<FamilyId, seq<TokenId>>,
                       c: Credentials, userActive: bool, now: Time, childId: TokenId)
    requires Inv(cfg, s, chains)
    ensures var o := RefreshStep(cfg, s, c, userActive, now, childId).1;
      && (o == CsrfRejected <==> !c.originAllowed || (Shown(s, c) && !CsrfValid(c, FamilyShown(s, c))))
      && (o == Expired <==> Shown(s, c) && AdmittedLive(cfg, s, c, now, FamilyShown(s, c))
                            && c.refreshToken.value == Head(chains, FamilyShown(s, c))
                            && s.tokens[c.refreshToken.value].expiresAt <= now)
      && (o == Invalid <==>
            (&& c.originAllowed
             && (|| !Shown(s, c)
                 || (CsrfValid(c, FamilyShown(s, c)) && !AdmittedLive(cfg, s, c, now, FamilyShown(s, c)))
                 || (!userActive && Timely(cfg, s, chains, c, now, FamilyShown(s, c))))))
  {
    if Shown(s, c) { PresentedFacts(cfg, s, chains, c.refreshToken.value); }
  }

  /** What a refresh does to a family: it is revoked exactly when a token that is
      not its head is shown, or its head in time for a user who is not active;
      otherwise at most its stamp moves, and that only if the request is admitted
      to it.  Owner, deadline and key stay, and so does every other family. */
  lemma RefreshRevokesExactly(cfg: Settings, s: Server, chains: map<FamilyId, seq<TokenId>>,
                              c: Credentials, userActive: bool, now: Time, childId: TokenId, f: FamilyId)
    requires Inv(cfg, s, chains) && f in s.families
    ensures f in RefreshStep(cfg, s, c, userActive, now, childId).0.families
    ensures var f' := RefreshStep(cfg, s, c, userActive, now, childId).0.families[f];
      && (f'.revokedAt.Some? <==> s.families[f].revokedAt.Some? || Reused(cfg, s, chains, c, now, f)
                                  || (!userActive && Timely(cfg, s, chains, c, now, f)))
      && (s.families[f].revokedAt.None? && f'.revokedAt.Some? ==>
            f'.revokedAt == Some(now)
            && f'.revokeReason == Some(if Reused(cfg, s, chains, c, now, f) then RefreshReuse else InactiveUser))
      && SameFamily(s.families[f], f')
      && (!Admitted(cfg, s, c, f) ==> f' == s.families[f])
  {
    if Admitted(cfg, s, c, f) {
      PresentedFacts(cfg, s, chains, c.refreshToken.value);
      AdmittedRefresh(cfg, s, c, userActive, now, childId, f);
    } else {
      NotAdmittedRefresh(cfg, s, c, userActive, now, childId, f);
    }
  }

  lemma NotAdmittedRefresh(cfg: Settings, s: Server, c: Credentials, userActive: bool, now: Time, childId: TokenId, f: FamilyId)
    requires f in s.families && !Admitted(cfg, s, c, f)
    ensures f in RefreshStep(cfg, s, c, userActive, now, childId).0.families
    ensures RefreshStep(cfg, s, c, userActive, now, childId).0.families[f] == s.families[f]
  {
  }

  lemma AdmittedRefresh(cfg: Settings, s: Server, c: Credentials, userActive: bool, now: Time, childId: TokenId, f: FamilyId)
    requires Admitted(cfg, s, c, f) && s.tokens[c.refreshToken.value].revokedAt.None?
    ensures f in RefreshStep(cfg, s, c, userActive, now, childId).0.families
    ensures var f' := RefreshStep(cfg, s, c, userActive, now, childId).0.families[f];
      var t, live := s.tokens[c.refreshToken.value], AdmittedLive(cfg, s, c, now, f);
      && SameFamily(s.families[f], f')
      && (if live && Consumed(t) then f'.revokedAt == Some(now) && f'.revokeReason == Some(RefreshReuse)
          else if live && now < t.expiresAt && !userActive then f'.revokedAt == Some(now) && f'.revokeReason == Some(InactiveUser)
          else f'.revokedAt == s.families[f].revokedAt)
  {
  }

  /** What is recorded of it: a wrong key, or a reuse. */
  lemma RefreshRecordsExactly(cfg: Settings, s: Server, chains: map<FamilyId, seq<TokenId>>,
                              c: Credentials, userActive: bool, now: Time, childId: TokenId)
    requires Inv(cfg, s, chains)
    ensures RefreshStep(cfg, s, c, userActive, now, childId).0.events == s.events +
      (if !Shown(s, c) then []
       else if Speaks(s, c, FamilyShown(s, c)) && !Admitted(cfg, s, c, FamilyShown(s, c)) then [KeyMismatch(FamilyShown(s, c))]
       else if Reused(cfg, s, chains, c, now, FamilyShown(s, c)) then [ReuseDetected(FamilyShown(s, c))]
       else [])
  {
    if Shown(s, c) { PresentedFacts(cfg, s, chains, c.refreshToken.value); }
  }

  /** A head shown in time for a user who is not active kills its family: no later
      step of the run rotates a token of it, whoever is active again. */
  lemma InactiveUserKillsFamily(cfg: Settings, ops: seq<Op>, chains: map<FamilyId, seq<TokenId>>, i: nat, j: nat,
                                f: FamilyId, child: TokenId)
    requires Legal(cfg, EMPTY, ops) && i < j < |ops| && ops[i].OpRefresh? && !ops[i].userActive
    requires Inv(cfg, Run(cfg, EMPTY, ops[..i]), chains)
    requires Timely(cfg, Run(cfg, EMPTY, ops[..i]), chains, ops[i].c, ops[i].now, f)
    ensures OutcomeAt(cfg, EMPTY, ops, i) == Invalid
    ensures OutcomeAt(cfg, EMPTY, ops, j) != Rotated(f, child)
  {
    LegalAt(cfg, EMPTY, ops, i);
    var s := Run(cfg, EMPTY, ops[..i]);
    var e := ops[i];
    RefusedExactly(cfg, s, chains, e.c, e.userActive, e.now, e.childId);
    RefreshRevokesExactly(cfg, s, chains, e.c, e.userActive, e.now, e.childId, f);
    RevokedStaysDead(cfg, EMPTY, ops, i + 1, j, f, child);
  }

  /** Any step of a legal run is enabled, and is taken from the state before it. */
  lemma {:induction false} LegalAt(cfg: Settings, s: Server, ops: seq<Op>, i: nat)
    requires Legal(cfg, s, ops) && i < |ops|
    ensures Enabled(Run(cfg, s, ops[..i]), ops[i])
    ensures Run(cfg, s, ops[..i + 1]) == Exec(cfg, Run(cfg, s, ops[..i]), ops[i]).0
    ensures OutcomeAt(cfg, s, ops, i) == Exec(cfg, Run(cfg, s, ops[..i]), ops[i]).1
    decreases i
  {
    if i == 0 {
      assert ops[..0] == [] && ops[..1][1..] == [];
    } else {
      LegalAt(cfg, Exec(cfg, s, ops[0]).0, ops[1..], i - 1);
      assert ops[..i][1..] == ops[1..][..i - 1] && ops[..i + 1][1..] == ops[1..][..i];
    }
  }

  /** A login opens a family for its user and its key: the first refresh with its
      token rotates exactly with the family's CSRF value, the key of the login if
      keys are bound, within both lifetimes and for an active user. */
  lemma FirstRefreshExactly(cfg: Settings, s: Server, user: UserId, key: Option<Thumbprint>, now: Time, family: FamilyId, token: TokenId,
                            c: Credentials, userActive: bool, later: Time, childId: TokenId)
    requires c.refreshToken == Some(token)
    ensures RefreshStep(cfg, LoginStep(cfg, s, user, key, now, family, token), c, userActive, later, childId).1.Rotated? <==>
      (&& c.originAllowed && CsrfValid(c, family) && (cfg.dpopEnabled ==> key.Some? && c.keyThumbprint == key)
       && later < now + cfg.idleTtl && later < now + cfg.absoluteTtl && userActive)
  {
  }

  /** And it is that user's family, which no other login touches. */
  lemma LoginBelongsToUser(cfg: Settings, s: Server, user: UserId, key: Option<Thumbprint>, now: Time, family: FamilyId, token: TokenId,
                           other: UserId, later: Time, f: FamilyId)
    requires f in s.families && family !in s.families
    ensures var s' := LoginStep(cfg, s, user, key, now, family, token);
      && family in s'.families && f in s'.families && s'.families[f] == s.families[f] && s'.events == s.events
      && (RevokeUserStep(s', other, later).families[family].revokedAt.Some? <==> other == user)
  {
  }

  // ------------------------------------------------ what last_rotated_at says

  /** The stamp a reader of the column expects: when the head of the family was
      issued by a rotation, the time its parent was used; otherwise none. */
  predicate StampHonest(s: Server, head: TokenId)
    requires head in s.tokens
  {
    var t := s.tokens[head];
    t.family in s.families &&
    match t.parent
    case None => s.families[t.family].lastRotatedAt == None
    case Some(p) => p in s.tokens && s.families[t.family].lastRotatedAt == s.tokens[p].usedAt
  }

  ghost predicate StampsHonest(s: Server) {
    forall t :: t in s.tokens && !Consumed(s.tokens[t]) ==> StampHonest(s, t)
  }

  /** The parent of a head is in the table, in the same family, and used up. */
  lemma HeadHasParent(cfg: Settings, s: Server, chains: map<FamilyId, seq<TokenId>>, t: TokenId)
    requires Inv(cfg, s, chains) && t in s.tokens && !Consumed(s.tokens[t])
    ensures s.tokens[t].parent.Some? ==>
      var p := s.tokens[t].parent.value; p in s.tokens && s.tokens[p].family == s.tokens[t].family && Consumed(s.tokens[p])
  {
    var f := s.tokens[t].family;
    var chain := chains[f];
    UnconsumedIsHead(cfg, s, chains, t);
    assert IsChain(cfg, s, f, chain);
    assert LinkOk(cfg, s, f, chain, |chain| - 1);
    if |chain| > 1 { assert LinkOk(cfg, s, f, chain, |chain| - 2); }
  }

  lemma RotationStampsHonestly(cfg: Settings, s: Server, chains: map<FamilyId, seq<TokenId>>,
                               id: TokenId, childId: TokenId, now: Time)
    requires Inv(cfg, s, chains) && StampsHonest(s)
    requires id in s.tokens && !Consumed(s.tokens[id]) && childId !in s.tokens
    ensures StampsHonest(AfterRotation(cfg, s, id, childId, now))
  {
    var s' := AfterRotation(cfg, s, id, childId, now);
    forall t | t in s'.tokens && !Consumed(s'.tokens[t]) ensures StampHonest(s', t) {
      if t == childId {
        assert s'.tokens[t].parent == Some(id);
      } else {
        OtherHeadStaysHonest(cfg, s, chains, id, childId, now, t);
      }
    }
  }

  lemma OtherHeadStaysHonest(cfg: Settings, s: Server, chains: map<FamilyId, seq<TokenId>>,
                             id: TokenId, childId: TokenId, now: Time, t: TokenId)
    requires Inv(cfg, s, chains) && StampsHonest(s)
    requires id in s.tokens && !Consumed(s.tokens[id]) && childId !in s.tokens
    requires t in s.tokens && t != id && !Consumed(s.tokens[t])
    ensures StampHonest(AfterRotation(cfg, s, id, childId, now), t)
  {
    assert StampHonest(s, t);
    UnconsumedIsHead(cfg, s, chains, id);
    UnconsumedIsHead(cfg, s, chains, t);
    HeadHasParent(cfg, s, chains, t);
    assert s.tokens[t].family != s.tokens[id].family;
  }

  /** A refresh or logout that is admitted to a family by its key, with key binding
      on, and does not rotate it. */
  predicate Stamps(cfg: Settings, s: Server, op: Op, f: FamilyId)
    requires Enabled(s, op)
  {
    cfg.dpopEnabled && (op.OpRefresh? || op.OpLogout?) && !Exec(cfg, s, op).1.Rotated? && Admitted(cfg, s, op.c, f)
  }

  lemma StampsExactly(cfg: Settings, s: Server, op: Op, f: FamilyId)
    requires f in s.families && Enabled(s, op) && !Exec(cfg, s, op).1.Rotated?
    ensures f in Exec(cfg, s, op).0.families
    ensures Exec(cfg, s, op).0.families[f].lastRotatedAt == if Stamps(cfg, s, op, f) then Some(op.now) else s.families[f].lastRotatedAt
  {
  }

  /** A stamp that moves without a rotation. */
  ghost predicate Restamps(cfg: Settings, s: Server, op: Op)
    requires Enabled(s, op)
  {
    exists f :: f in s.families && Stamps(cfg, s, op, f) && s.families[f].lastRotatedAt != Some(op.now)
  }

  /** A stamp that moved while the tokens stayed is dishonest: it belongs to the
      family of some head. */
  lemma MovedStampIsDishonest(cfg: Settings, s: Server, s': Server, chains: map<FamilyId, seq<TokenId>>, f: FamilyId)
    requires Inv(cfg, s, chains) && StampsHonest(s) && s'.tokens == s.tokens && s'.families.Keys == s.families.Keys
    requires f in s.families && s'.families[f].lastRotatedAt != s.families[f].lastRotatedAt
    ensures !StampsHonest(s')
  {
    assert IsChain(cfg, s, f, chains[f]);
    var head := chains[f][|chains[f]| - 1];
    UnconsumedIsHead(cfg, s, chains, head);
    assert StampHonest(s, head) && !StampHonest(s', head);
  }

  lemma KeptStampsAreHonest(s: Server, s': Server)
    requires StampsHonest(s) && s'.tokens == s.tokens && s'.families.Keys == s.families.Keys
    requires forall f :: f in s.families ==> s'.families[f].lastRotatedAt == s.families[f].lastRotatedAt
    ensures StampsHonest(s')
  {
    forall t | t in s'.tokens && !Consumed(s'.tokens[t]) ensures StampHonest(s', t) {
      assert StampHonest(s, t);
    }
  }

  lemma RotationStep(cfg: Settings, s: Server, op: Op, chains: map<FamilyId, seq<TokenId>>)
    requires Inv(cfg, s, chains) && StampsHonest(s) && Enabled(s, op) && Exec(cfg, s, op).1.Rotated?
    ensures StampsHonest(Exec(cfg, s, op).0)
  {
    RefreshShape(cfg, s, op.c, op.userActive, op.now, op.childId);
    var id := op.c.refreshToken.value;
    var b := Bind(cfg, s, s.tokens[id].family, op.c.keyThumbprint, op.now);
    RotationStampsHonestly(cfg, s, chains, id, op.childId, op.now);
    HonestIgnoresEvents(AfterRotation(cfg, s, id, op.childId, op.now), AfterRotation(cfg, b, id, op.childId, op.now));
  }

  lemma HonestIgnoresEvents(s: Server, s': Server)
    requires StampsHonest(s) && s'.tokens == s.tokens && s'.families == s.families
    ensures StampsHonest(s')
  {
    KeptStampsAreHonest(s, s');
  }

  lemma LoginStampsHonestly(cfg: Settings, s: Server, op: Op)
    requires StampsHonest(s) && Enabled(s, op) && op.OpLogin?
    ensures StampsHonest(Exec(cfg, s, op).0)
  {
    var s' := Exec(cfg, s, op).0;
    forall t | t in s'.tokens && !Consumed(s'.tokens[t]) ensures StampHonest(s', t) {
      if t != op.token { assert StampHonest(s, t); }
    }
  }

  lemma QuietStep(cfg: Settings, s: Server, op: Op, chains: map<FamilyId, seq<TokenId>>)
    requires Inv(cfg, s, chains) && StampsHonest(s) && Enabled(s, op)
    requires !Exec(cfg, s, op).1.Rotated? && !op.OpLogin?
    ensures StampsHonest(Exec(cfg, s, op).0) <==> !Restamps(cfg, s, op)
  {
    var s' := Exec(cfg, s, op).0;
    OtherStepsOnlyStamp(cfg, s, op);
    if Restamps(cfg, s, op) {
      var f :| f in s.families && Stamps(cfg, s, op, f) && s.families[f].lastRotatedAt != Some(op.now);
      StampsExactly(cfg, s, op, f);
      MovedStampIsDishonest(cfg, s, s', chains, f);
    } else {
      forall f | f in s.families ensures s'.families[f].lastRotatedAt == s.families[f].lastRotatedAt {
        StampsExactly(cfg, s, op, f);
      }
      KeptStampsAreHonest(s, s');
    }
  }

  /** A transaction keeps last_rotated_at honest exactly when it moves no stamp
      without rotating. */
  lemma StampStepExactly(cfg: Settings, s: Server, op: Op, chains: map<FamilyId, seq<TokenId>>)
    requires Inv(cfg, s, chains) && StampsHonest(s) && Enabled(s, op)
    ensures StampsHonest(Exec(cfg, s, op).0) <==> !Restamps(cfg, s, op)
  {
    if Exec(cfg, s, op).1.Rotated? {
      RotationStep(cfg, s, op, chains);
    } else if op.OpLogin? {
      LoginStampsHonestly(cfg, s, op);
    } else {
      QuietStep(cfg, s, op, chains);
    }
  }

  ghost predicate HonestThroughout(cfg: Settings, s: Server, ops: seq<Op>)
    requires Legal(cfg, s, ops)
    decreases |ops|
  {
    StampsHonest(s) && (ops == [] || HonestThroughout(cfg, Exec(cfg, s, ops[0]).0, ops[1..]))
  }

  ghost predicate NeverRestamps(cfg: Settings, s: Server, ops: seq<Op>)
    requires Legal(cfg, s, ops)
    decreases |ops|
  {
    ops == [] || (!Restamps(cfg, s, ops[0]) && NeverRestamps(cfg, Exec(cfg, s, ops[0]).0, ops[1..]))
  }

  lemma {:induction false} HonestFrom(cfg: Settings, s: Server, ops: seq<Op>, chains: map<FamilyId, seq<TokenId>>)
    requires Inv(cfg, s, chains) && StampsHonest(s) && Legal(cfg, s, ops)
    ensures HonestThroughout(cfg, s, ops) <==> NeverRestamps(cfg, s, ops)
    decreases |ops|
  {
    if ops != [] {
      var (s', o) := Exec(cfg, s, ops[0]);
      StepKeepsInv(cfg, s, ops[0], chains);
      StampStepExactly(cfg, s, ops[0], chains);
      if StampsHonest(s') { HonestFrom(cfg, s', ops[1..], NextChains(chains, o)); }
    }
  }

  /** Over any run last_rotated_at is always the time of the family's last rotation
      exactly when no admitted refresh or logout ever moved it without rotating. */
  lemma HonestExactly(cfg: Settings, ops: seq<Op>)
    requires Legal(cfg, EMPTY, ops)
    ensures HonestThroughout(cfg, EMPTY, ops) <==> NeverRestamps(cfg, EMPTY, ops)
  {
    HonestFrom(cfg, EMPTY, ops, map[]);
  }

  /** With key binding off none ever does, so the stamps stay honest. */
  lemma {:induction false} StampHonestWithoutBinding(cfg: Settings, s: Server, ops: seq<Op>, chains: map<FamilyId, seq<TokenId>>)
    requires !cfg.dpopEnabled && Inv(cfg, s, chains) && StampsHonest(s) && Legal(cfg, s, ops)
    ensures StampsHonest(Run(cfg, s, ops)) && NeverRestamps(cfg, s, ops)
    decreases |ops|
  {
    if ops != [] {
      StepKeepsInv(cfg, s, ops[0], chains);
      StampStepExactly(cfg, s, ops[0], chains);
      StampHonestWithoutBinding(cfg, Exec(cfg, s, ops[0]).0, ops[1..], NextChains(chains, Exec(cfg, s, ops[0]).1));
    }
  }

  /** With key binding on, a logout stamps last_rotated_at although the family
      never rotated, and so does a refresh refused for an inactive user. */
  lemma LogoutStampsRotation(cfg: Settings, now: Time)
    requires cfg.dpopEnabled
    ensures var c := Credentials(true, Some(7), Some(Issued(1, 0)), Some(Issued(1, 0)), Some(5));
            var s := Run(cfg, EMPTY, [OpLogin(3, Some(5), now, 1, 7), OpLogout(c, now + 1)]);
            1 in s.families && 7 in s.tokens && s.tokens[7].usedAt == None &&
            s.families[1].lastRotatedAt == Some(now + 1)
  {
    var c := Credentials(true, Some(7), Some(Issued(1, 0)), Some(Issued(1, 0)), Some(5));
    RunTwo(cfg, EMPTY, OpLogin(3, Some(5), now, 1, 7), OpLogout(c, now + 1));
  }

  lemma RefusedRefreshStampsRotation(cfg: Settings, now: Time)
    requires cfg.dpopEnabled && cfg.absoluteTtl > 1 && cfg.idleTtl > 1
    ensures var c := Credentials(true, Some(7), Some(Issued(1, 0)), Some(Issued(1, 0)), Some(5));
            var refresh := OpRefresh(c, false, now + 1, 8);
            var s := Run(cfg, EMPTY, [OpLogin(3, Some(5), now, 1, 7), refresh]);
            1 in s.families && 7 in s.tokens && s.tokens[7].usedAt == None && 8 !in s.tokens &&
            s.families[1].lastRotatedAt == Some(now + 1)
  {
    var c := Credentials(true, Some(7), Some(Issued(1, 0)), Some(Issued(1, 0)), Some(5));
    RunTwo(cfg, EMPTY, OpLogin(3, Some(5), now, 1, 7), OpRefresh(c, false, now + 1, 8));
  }

  lemma RunTwo(cfg: Settings, s: Server, a: Op, b: Op)
    requires Enabled(s, a) && Enabled(Exec(cfg, s, a).0, b)
    ensures Legal(cfg, s, [a, b]) && Run(cfg, s, [a, b]) == Exec(cfg, Exec(cfg, s, a).0, b).0
  {
    var s1 := Exec(cfg, s, a).0;
    assert [a, b][1..] == [b] && [b][1..] == [];
    assert Run(cfg, s1, [b]) == Run(cfg, Exec(cfg, s1, b).0, []);
  }
}
