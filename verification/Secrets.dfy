/** Webhook signing secrets: registering an endpoint stores version 1, a rotation retires the active
    version and stores the next one under a lock on the endpoint's row, and the dispatcher signs with
    the active version (services/payment_service/app/service.py,
    alembic/versions/0002_harden_ledger_and_webhook_secrets.py). */
module Secrets {
  import opened Money

  /** `secret` is the plain text of `secret_ciphertext`. */
  datatype SecretRow = SecretRow(secret: nat, active: bool)

  /** The rows of one endpoint, by version. */
  type Versions = map<nat, SecretRow>

  // ---------------------------------------------------------------- what the queries return

  /** `SELECT ... WHERE active`: some active version, if there is one. */
  predicate IsActive(rows: Versions, found: Option<nat>)
  {
    if found.Some? then found.value in rows && rows[found.value].active else forall v :: v in rows ==> !rows[v].active
  }

  /** `coalesce(max(version), 0)` */
  predicate IsLatest(rows: Versions, latest: nat)
  {
    if rows == map[] then latest == 0 else latest in rows && forall v :: v in rows ==> v <= latest
  }

  /** Neither unique constraint is broken by adding `version` as the active row. */
  predicate Insertable(rows: Versions, version: nat)
  {
    version !in rows && forall v :: v in rows ==> !rows[v].active
  }

  function Retired(rows: Versions, found: Option<nat>): Versions
  {
    if found.Some? && found.value in rows then rows[found.value := rows[found.value].(active := false)] else rows
  }

  function Rotated(rows: Versions, found: Option<nat>, latest: nat, secret: nat): Versions
  {
    Retired(rows, found)[latest + 1 := SecretRow(secret, true)]
  }

  // ---------------------------------------------------------------- interleaved transactions

  /** A rotation's next statement, with what it has read. */
  datatype Rotation =
    | Opening
    | Locked
    | FoundActive(active: Option<nat>)
    | FoundLatest(active: Option<nat>, latest: nat)

  datatype Txn = Txn(endpoint: nat, merchant: nat, stage: Rotation)

  /** `owners` are the committed endpoints with their merchants. `handedOut` is a history variable: the
      secret last returned for an endpoint. */
  datatype Vault = Vault(
    owners: map<nat, nat>,
    secrets: map<nat, Versions>,
    txns: map<nat, Txn>,
    handedOut: map<nat, nat>)

  datatype Move =
    | Register(endpoint: nat, merchant: nat, secret: nat)
    | Open(txn: nat, endpoint: nat, merchant: nat)
    | LockEndpoint(txn: nat)
    | ReadActive(txn: nat, active: Option<nat>)
    | ReadLatest(txn: nat, latest: nat)
    | Commit(txn: nat, secret: nat)
    | Rollback(txn: nat)

  function RowsOf(v: Vault, endpoint: nat): Versions { if endpoint in v.secrets then v.secrets[endpoint] else map[] }

  predicate Holds(v: Vault, txn: nat, endpoint: nat)
  {
    txn in v.txns && v.txns[txn].endpoint == endpoint && !v.txns[txn].stage.Opening?
  }

  ghost predicate Enabled(v: Vault, move: Move)
  {
    match move
    case Register(endpoint, _, _) => endpoint !in v.owners
    case Open(txn, _, _) => txn !in v.txns
    case LockEndpoint(txn) =>
      txn in v.txns && v.txns[txn].stage.Opening? && forall other :: other != txn ==>
        !Holds(v, other, v.txns[txn].endpoint)
    case ReadActive(txn, active) =>
      txn in v.txns && v.txns[txn].stage.Locked? && IsActive(RowsOf(v, v.txns[txn].endpoint), active)
    case ReadLatest(txn, latest) =>
      txn in v.txns && v.txns[txn].stage.FoundActive? && IsLatest(RowsOf(v, v.txns[txn].endpoint), latest)
    case Commit(txn, _) => txn in v.txns && v.txns[txn].stage.FoundLatest?
    case Rollback(txn) => txn in v.txns
  }

  function Continue(v: Vault, txn: nat, stage: Rotation): Vault
    requires txn in v.txns
  {
    v.(txns := v.txns[txn := v.txns[txn].(stage := stage)])
  }

  function Next(v: Vault, move: Move): Vault
    requires Enabled(v, move)
  {
    match move
    case Register(endpoint, merchant, secret) =>
      v.(owners := v.owners[endpoint := merchant],
         secrets := v.secrets[endpoint := map[1 := SecretRow(secret, true)]],
         handedOut := v.handedOut[endpoint := secret])
    case Open(txn, endpoint, merchant) => v.(txns := v.txns[txn := Txn(endpoint, merchant, Opening)])
    case LockEndpoint(txn) =>
      var t := v.txns[txn];
      if t.endpoint !in v.owners || v.owners[t.endpoint] != t.merchant then v.(txns := v.txns - {txn})
      else Continue(v, txn, Locked)
    case ReadActive(txn, active) => Continue(v, txn, FoundActive(active))
    case ReadLatest(txn, latest) => Continue(v, txn, FoundLatest(v.txns[txn].stage.active, latest))
    case Commit(txn, secret) => Committed(v, txn, secret)
    case Rollback(txn) => v.(txns := v.txns - {txn})
  }

  /** The flush retires the active row and inserts the new one; a broken constraint rolls everything back. */
  function Committed(v: Vault, txn: nat, secret: nat): Vault
    requires txn in v.txns && v.txns[txn].stage.FoundLatest?
  {
    var t, ended := v.txns[txn], v.(txns := v.txns - {txn});
    var rows := RowsOf(v, t.endpoint);
    if !Insertable(Retired(rows, t.stage.active), t.stage.latest + 1) then ended
    else ended.(secrets := v.secrets[t.endpoint := Rotated(rows, t.stage.active, t.stage.latest, secret)],
                handedOut := v.handedOut[t.endpoint := secret])
  }

  // ---------------------------------------------------------------- the invariant

  /** The versions are 1 to `n`, and the last is the only active one. */
  ghost predicate Numbered(rows: Versions, n: nat)
  {
    && n >= 1
    && (forall v :: v in rows <==> 1 <= v <= n)
    && (forall v :: v in rows ==> (rows[v].active <==> v == n))
  }

  ghost predicate SignsWith(rows: Versions, secret: nat)
  {
    exists n: nat :: Numbered(rows, n) && rows[n].secret == secret
  }

  ghost predicate SecretsOk(v: Vault)
  {
    && v.owners.Keys == v.secrets.Keys == v.handedOut.Keys
    && forall e :: e in v.owners ==> SignsWith(v.secrets[e], v.handedOut[e])
  }

  ghost predicate TxnOk(v: Vault, t: Txn)
  {
    && (!t.stage.Opening? ==> t.endpoint in v.owners && v.owners[t.endpoint] == t.merchant)
    && (t.stage.FoundActive? || t.stage.FoundLatest? ==> IsActive(RowsOf(v, t.endpoint), t.stage.active))
    && (t.stage.FoundLatest? ==> IsLatest(RowsOf(v, t.endpoint), t.stage.latest))
  }

  ghost predicate VaultOk(v: Vault)
  {
    && SecretsOk(v)
    && (forall t :: t in v.txns ==> TxnOk(v, v.txns[t]))
    && (forall t, u, e :: Holds(v, t, e) && Holds(v, u, e) ==> t == u)
  }

  /** What a rotation reads pins down the rows it leaves. */
  lemma RotationNumbers(rows: Versions, n: nat, active: Option<nat>, latest: nat, secret: nat)
    requires Numbered(rows, n) && IsActive(rows, active) && IsLatest(rows, latest)
    ensures active == Some(n) && latest == n
    ensures Insertable(Retired(rows, active), n + 1)
    ensures Numbered(Rotated(rows, active, latest, secret), n + 1)
    ensures SignsWith(Rotated(rows, active, latest, secret), secret)
  {
    assert rows[n].active;
    assert rows != map[];
  }

  lemma FirstVersion(secret: nat)
    ensures SignsWith(map[1 := SecretRow(secret, true)], secret)
  {
    assert Numbered(map[1 := SecretRow(secret, true)], 1);
  }

  lemma CommitRotates(v: Vault, txn: nat, secret: nat)
    requires Enabled(v, Commit(txn, secret)) && VaultOk(v)
    ensures var t, w := v.txns[txn], Committed(v, txn, secret);
      && t.endpoint in v.secrets && t.stage.latest + 1 !in v.secrets[t.endpoint]
      && w.secrets == v.secrets[t.endpoint := Rotated(v.secrets[t.endpoint], t.stage.active, t.stage.latest, secret)]
      && w.handedOut == v.handedOut[t.endpoint := secret] && w.owners == v.owners
      && SignsWith(w.secrets[t.endpoint], secret)
  {
    var t := v.txns[txn];
    assert TxnOk(v, t);
    var n: nat :| Numbered(v.secrets[t.endpoint], n);
    RotationNumbers(v.secrets[t.endpoint], n, t.stage.active, t.stage.latest, secret);
  }

  lemma SecretsKept(v: Vault, move: Move)
    requires Enabled(v, move) && VaultOk(v)
    ensures SecretsOk(Next(v, move))
  {
    match move
    case Commit(txn, secret) => CommitKeepsSecrets(v, txn, secret);
    case Register(_, _, secret) => FirstVersion(secret);
    case _ => OnlyTxnsMove(v, move);
  }

  lemma OnlyTxnsMove(v: Vault, move: Move)
    requires Enabled(v, move) && !move.Commit? && !move.Register?
    ensures Next(v, move) == v.(txns := Next(v, move).txns)
  {
  }

  lemma CommitKeepsSecrets(v: Vault, txn: nat, secret: nat)
    requires Enabled(v, Commit(txn, secret)) && VaultOk(v)
    ensures SecretsOk(Committed(v, txn, secret))
  {
    CommitRotates(v, txn, secret);
  }

  /** A lock is new, and then nobody else holds it, or was held before. */
  lemma HolderSource(v: Vault, move: Move, a: nat, e: nat)
    requires Enabled(v, move) && Holds(Next(v, move), a, e)
    ensures Holds(v, a, e) || (move == LockEndpoint(a) && forall b :: b != a ==> !Holds(v, b, e))
  {
  }

  /** Only the holder of an endpoint's lock changes its rows. */
  lemma TxnKept(v: Vault, move: Move, id: nat)
    requires Enabled(v, move) && VaultOk(v) && id in Next(v, move).txns
    ensures TxnOk(Next(v, move), Next(v, move).txns[id])
  {
    if move.Commit? {
      CommitKeepsOthers(v, move.txn, move.secret, id);
    } else if id in v.txns {
      assert TxnOk(v, v.txns[id]);
    }
  }

  lemma CommitKeepsOthers(v: Vault, txn: nat, secret: nat, id: nat)
    requires Enabled(v, Commit(txn, secret)) && VaultOk(v) && id in v.txns && id != txn
    ensures TxnOk(Committed(v, txn, secret), v.txns[id])
  {
    var t, u := v.txns[id], v.txns[txn];
    assert TxnOk(v, t) && TxnOk(v, u);
    if !t.stage.Opening? {
      assert Holds(v, id, t.endpoint) && Holds(v, txn, u.endpoint);
      assert RowsOf(Committed(v, txn, secret), t.endpoint) == RowsOf(v, t.endpoint);
    }
  }

  lemma VaultKept(v: Vault, move: Move)
    requires Enabled(v, move) && VaultOk(v)
    ensures VaultOk(Next(v, move))
  {
    var t := Next(v, move);
    SecretsKept(v, move);
    forall id | id in t.txns ensures TxnOk(t, t.txns[id]) { TxnKept(v, move, id); }
    forall a, b, e | Holds(t, a, e) && Holds(t, b, e) ensures a == b
    {
      HolderSource(v, move, a, e);
      HolderSource(v, move, b, e);
    }
  }

  // ---------------------------------------------------------------- all runs

  ghost predicate IsRun(states: seq<Vault>, moves: seq<Move>)
  {
    && |states| == |moves| + 1
    && forall i :: 0 <= i < |moves| ==> Enabled(states[i], moves[i]) && states[i + 1] == Next(states[i], moves[i])
  }

  ghost predicate Reaches(states: seq<Vault>, moves: seq<Move>)
  {
    IsRun(states, moves) && states[0] == Vault(map[], map[], map[], map[])
  }

  lemma {:induction false} RunKeepsVault(states: seq<Vault>, moves: seq<Move>)
    requires IsRun(states, moves) && VaultOk(states[0])
    ensures VaultOk(states[|moves|])
    decreases |moves|
  {
    if |moves| == 0 {
    } else {
      var n := |moves| - 1;
      RunKeepsVault(states[..n + 1], moves[..n]);
      VaultKept(states[n], moves[n]);
    }
  }

  /** After any interleaving each endpoint has the versions 1 to n, one of them active, the last, and it is
      the secret its merchant was given last. */
  lemma VersionsAreNumbered(states: seq<Vault>, moves: seq<Move>)
    requires Reaches(states, moves)
    ensures VaultOk(states[|moves|])
  {
    RunKeepsVault(states, moves);
  }

  /** A dispatcher always finds a secret, and no other than the one last handed out. */
  lemma DispatcherFindsSecret(states: seq<Vault>, moves: seq<Move>, e: nat, found: Option<nat>)
    requires Reaches(states, moves) && e in states[|moves|].owners && IsActive(RowsOf(states[|moves|], e), found)
    ensures found.Some? && found.value in states[|moves|].secrets[e]
    ensures e in states[|moves|].handedOut
      && states[|moves|].secrets[e][found.value].secret == states[|moves|].handedOut[e]
  {
    var v := states[|moves|];
    VersionsAreNumbered(states, moves);
    var n: nat :| Numbered(v.secrets[e], n) && v.secrets[e][n].secret == v.handedOut[e];
    assert v.secrets[e][n].active;
  }

  /** Neither unique constraint ever stops a rotation: it retires the last version and adds the next one, with the
      secret that it hands out. */
  lemma RotationNeverConflicts(states: seq<Vault>, moves: seq<Move>, txn: nat, secret: nat) returns (n: nat)
    requires Reaches(states, moves) && Enabled(states[|moves|], Commit(txn, secret))
    ensures var v := states[|moves|]; var t := v.txns[txn]; var w := Next(v, Commit(txn, secret));
      && t.endpoint in v.secrets && n in v.secrets[t.endpoint] && n + 1 !in v.secrets[t.endpoint]
      && (forall i :: i in v.secrets[t.endpoint] ==> 1 <= i <= n)
      && w.secrets == v.secrets[t.endpoint := v.secrets[t.endpoint][n := v.secrets[t.endpoint][n].(active := false)]
        [n + 1 := SecretRow(secret, true)]]
      && w.handedOut == v.handedOut[t.endpoint := secret]
  {
    var v := states[|moves|];
    VersionsAreNumbered(states, moves);
    CommitRotates(v, txn, secret);
    var t := v.txns[txn];
    assert TxnOk(v, t);
    n :| Numbered(v.secrets[t.endpoint], n);
    RotationNumbers(v.secrets[t.endpoint], n, t.stage.active, t.stage.latest, secret);
  }

  lemma Append(states: seq<Vault>, moves: seq<Move>, move: Move) returns (more: seq<Vault>, longer: seq<Move>)
    requires IsRun(states, moves) && Enabled(states[|moves|], move)
    ensures IsRun(more, longer) && more[0] == states[0] && longer == moves + [move]
    ensures more[|longer|] == Next(states[|moves|], move)
  {
    more, longer := states + [Next(states[|moves|], move)], moves + [move];
  }

  lemma OpenAndLock(v: Vault, txn: nat, endpoint: nat) returns (states: seq<Vault>, moves: seq<Move>)
    requires endpoint in v.owners && txn !in v.txns
    requires forall other :: !Holds(v, other, endpoint)
    ensures IsRun(states, moves) && states[0] == v
    ensures moves == [Open(txn, endpoint, v.owners[endpoint]), LockEndpoint(txn)]
    ensures states[|moves|] == v.(txns := v.txns[txn := Txn(endpoint, v.owners[endpoint], Locked)])
  {
    states, moves := Append([v], [], Open(txn, endpoint, v.owners[endpoint]));
    forall other | other != txn ensures !Holds(states[1], other, endpoint)
    {
      assert !Holds(v, other, endpoint);
    }
    states, moves := Append(states, moves, LockEndpoint(txn));
  }

  lemma ReadVersions(v: Vault, txn: nat, endpoint: nat, n: nat) returns (states: seq<Vault>, moves: seq<Move>)
    requires endpoint in v.owners && endpoint in v.secrets && Numbered(v.secrets[endpoint], n)
    requires txn in v.txns && v.txns[txn] == Txn(endpoint, v.owners[endpoint], Locked)
    ensures IsRun(states, moves) && states[0] == v
    ensures moves == [ReadActive(txn, Some(n)), ReadLatest(txn, n)]
    ensures states[|moves|]
         == v.(txns := v.txns[txn := Txn(endpoint, v.owners[endpoint], FoundLatest(Some(n), n))])
  {
    assert v.secrets[endpoint][n].active;
    states, moves := Append([v], [], ReadActive(txn, Some(n)));
    states, moves := Append(states, moves, ReadLatest(txn, n));
  }

  lemma CommitHandsOut(v: Vault, txn: nat, secret: nat) returns (states: seq<Vault>, moves: seq<Move>)
    requires VaultOk(v) && Enabled(v, Commit(txn, secret))
    ensures IsRun(states, moves) && states[0] == v && moves == [Commit(txn, secret)]
    ensures var e := v.txns[txn].endpoint;
      && states[1].handedOut == v.handedOut[e := secret] && e in states[1].secrets
      && SignsWith(states[1].secrets[e], secret)
  {
    CommitRotates(v, txn, secret);
    states, moves := [v, Next(v, Commit(txn, secret))], [Commit(txn, secret)];
  }

  lemma Joined(a: seq<Vault>, m: seq<Move>, b: seq<Vault>, n: seq<Move>)
    returns (states: seq<Vault>, moves: seq<Move>)
    requires IsRun(a, m) && IsRun(b, n) && a[|m|] == b[0]
    ensures IsRun(states, moves) && states[0] == a[0] && moves == m + n && states[|moves|] == b[|n|]
  {
    states, moves := a + b[1..], m + n;
    forall i | 0 <= i < |moves| ensures Enabled(states[i], moves[i]) && states[i + 1] == Next(states[i], moves[i])
    {
      if i < |m| {
        assert states[i] == a[i] && states[i + 1] == a[i + 1] && moves[i] == m[i];
      } else {
        assert states[i] == b[i - |m|] && states[i + 1] == b[i - |m| + 1] && moves[i] == n[i - |m|];
      }
    }
  }

  /** The owner of an endpoint that nobody is rotating gets its new secret, */
  lemma OwnerRotates(v: Vault, txn: nat, endpoint: nat, secret: nat) returns (states: seq<Vault>, moves: seq<Move>)
    requires VaultOk(v) && endpoint in v.owners && txn !in v.txns
    requires forall other :: !Holds(v, other, endpoint)
    ensures IsRun(states, moves) && states[0] == v && |moves| == 5
    ensures moves[0] == Open(txn, endpoint, v.owners[endpoint]) && moves[4] == Commit(txn, secret)
    ensures states[5].handedOut == v.handedOut[endpoint := secret] && endpoint in states[5].secrets
    ensures SignsWith(states[5].secrets[endpoint], secret)
  {
    var n: nat :| Numbered(v.secrets[endpoint], n);
    var a, m := OpenAndLock(v, txn, endpoint);
    var b, o := ReadVersions(a[2], txn, endpoint, n);
    states, moves := Joined(a, m, b, o);
    RunKeepsVault(states, moves);
    var c, p := CommitHandsOut(b[2], txn, secret);
    states, moves := Joined(states, moves, c, p);
  }

  /** and for anybody else the request ends at the endpoint's row and changes nothing. */
  lemma OthersRotateNothing(v: Vault, txn: nat, endpoint: nat, merchant: nat)
    requires txn !in v.txns && (endpoint in v.owners ==> v.owners[endpoint] != merchant)
    ensures var begun := Next(v, Open(txn, endpoint, merchant));
      Enabled(begun, LockEndpoint(txn)) ==> Next(begun, LockEndpoint(txn)) == v
  {
    assert Next(v, Open(txn, endpoint, merchant)).txns - {txn} == v.txns;
  }

  // ---------------------------------------------------------------- the service functions on one endpoint

  class EndpointSecrets {
    const merchant: nat
    var rows: Versions

    /** What registration and every rotation leave: consecutive versions, the last one active. */
    ghost predicate Valid()
      reads this
    {
      exists n: nat :: Numbered(rows, n)
    }

    constructor Register(merchant: nat, secret: nat)
      ensures Valid() && this.merchant == merchant && SignsWith(rows, secret)
    {
      this.merchant := merchant;
      rows := map[1 := SecretRow(secret, true)];
      new;
      FirstVersion(secret);
      assert Numbered(rows, 1);
    }

    /** Another merchant's request changes nothing; the owner's retires the active secret and makes
        `secret` the one to sign with, and no older one is lost. */
    method Rotate(merchant: nat, secret: nat) returns (ok: bool)
      requires Valid()
      modifies this
      ensures Valid() && ok == (merchant == this.merchant)
      ensures !ok ==> rows == old(rows)
      ensures ok ==> SignsWith(rows, secret)
      ensures forall v :: v in old(rows) ==> v in rows && rows[v].secret == old(rows)[v].secret
      ensures ok ==> exists n: nat :: Numbered(old(rows), n) && rows.Keys == old(rows).Keys + {n + 1}
    {
      if merchant != this.merchant { return false; }
      ghost var n: nat :| Numbered(rows, n);
      assert n in rows && rows[n].active;
      var active, latest := None, 0;
      if v :| v in rows && rows[v].active { active := Some(v); }
      latest :| latest in rows && forall v :: v in rows ==> v <= latest;
      RotationNumbers(rows, n, active, latest, secret);
      if active.Some? { rows := rows[active.value := rows[active.value].(active := false)]; }
      rows := rows[latest + 1 := SecretRow(secret, true)];
      return true;
    }

    /** `active_webhook_secret`: the lookup finds the one secret the endpoint signs with. */
    method ActiveSecret() returns (secret: Option<nat>)
      requires Valid()
      ensures secret.Some? && SignsWith(rows, secret.value)
    {
      ghost var n: nat :| Numbered(rows, n);
      assert n in rows && rows[n].active;
      if v :| v in rows && rows[v].active { return Some(rows[v].secret); }
      return None;
    }
  }
}
