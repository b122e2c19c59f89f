/**
 * Pairing tokens of src/clibpard/security/pairing.py: a table from token
 * string to its record, with an explicit clock `now` in place of `utc_now()`.
 * A token is valid while `now <= expires_at`; the sweep and the listing of
 * active tokens count a token as expired already at `now == expires_at`.
 */
module Pairing {
  import opened Wrappers
  import Utils
  import Storage

  datatype PairingToken = PairingToken(
    token: string,
    createdAt: int,
    expiresAt: int,
    deviceId: string,
    deviceName: string)

  /** `_active_tokens`. */
  type TokenTable = map<string, PairingToken>

  const DefaultTtlSeconds: int := 300

  /** Every record sits under its own token string. */
  ghost predicate TableKeyed(t: TokenTable)
  {
    forall k :: k in t ==> t[k].token == k
  }

  /** The verdict of validate_token at time `now`. */
  predicate IsValidAt(t: TokenTable, token: string, now: int)
  {
    token in t && now <= t[token].expiresAt
  }

  /** The table after validate_token: a token found expired is evicted. */
  function AfterValidate(t: TokenTable, token: string, now: int): TokenTable
  {
    if token in t && now > t[token].expiresAt then t - {token} else t
  }

  /** The table after consume_token: validate, then delete if it was valid. */
  function AfterConsume(t: TokenTable, token: string, now: int): TokenTable
  {
    var t' := AfterValidate(t, token, now);
    if IsValidAt(t, token, now) then t' - {token} else t'
  }

  /** The tokens one sweep step deletes: those with `expires_at <= now`. */
  function ExpiredKeys(t: TokenTable, now: int): set<string>
  {
    set k | k in t && t[k].expiresAt <= now
  }

  /** get_active_tokens: the records with `expires_at > now`. */
  predicate IsActiveAt(t: TokenTable, x: PairingToken, now: int)
  {
    x.token in t && t[x.token] == x && x.expiresAt > now
  }

  /**
   * Consuming a present token always removes it (as consumed when valid, as
   * evicted when expired); an absent token leaves the table as it was. Every
   * other entry is untouched, by validation and consumption alike.
   */
  lemma ValidateAndConsumeFrames(t: TokenTable, token: string, now: int)
    ensures AfterConsume(t, token, now) == t - {token}
    ensures token !in t ==> AfterValidate(t, token, now) == t && !IsValidAt(t, token, now)
    ensures forall k :: k in t && k != token ==>
              k in AfterValidate(t, token, now) && AfterValidate(t, token, now)[k] == t[k]
              && k in AfterConsume(t, token, now) && AfterConsume(t, token, now)[k] == t[k]
  {
    if token in t {
      assert AfterConsume(t, token, now) == t - {token};
    }
  }

  /**
   * The boundary instant: a token whose expiry is exactly `now` still
   * validates, yet is not listed as active and is deleted by a sweep at `now`.
   */
  lemma ExpiryBoundary(t: TokenTable, token: string, now: int)
    requires token in t && t[token].expiresAt == now
    ensures IsValidAt(t, token, now)
    ensures !IsActiveAt(t, t[token], now)
    ensures token in ExpiredKeys(t, now) && !IsValidAt(t - ExpiredKeys(t, now), token, now)
  {
  }

  /** One operation on the token table, with the clock reading it is made at. */
  datatype TokenOp =
    | Generate(token: string, now: int, ttl: int)
    | Validate(token: string, now: int)
    | Consume(token: string, now: int)
    | Sweep(now: int)

  /** The table after one operation; `Generate` records the token the random draws produced. */
  function Step(t: TokenTable, op: TokenOp, deviceId: string, deviceName: string): TokenTable
  {
    match op
    case Generate(token, now, ttl) => t[token := PairingToken(token, now, now + ttl, deviceId, deviceName)]
    case Validate(token, now) => AfterValidate(t, token, now)
    case Consume(token, now) => AfterConsume(t, token, now)
    case Sweep(now) => t - ExpiredKeys(t, now)
  }

  /** How many `Consume(token, _)` operations of `ops` return true, run in turn from `t`. */
  function ConsumeSuccesses(t: TokenTable, ops: seq<TokenOp>, token: string, deviceId: string, deviceName: string): nat
    decreases |ops|
  {
    if ops == [] then 0
    else
      (if ops[0].Consume? && ops[0].token == token && IsValidAt(t, token, ops[0].now) then 1 else 0)
      + ConsumeSuccesses(Step(t, ops[0], deviceId, deviceName), ops[1..], token, deviceId, deviceName)
  }

  /** No operation but `Generate` ever adds a token to the table. */
  predicate NeverIssued(ops: seq<TokenOp>, token: string)
  {
    forall i :: 0 <= i < |ops| ==> !(ops[i].Generate? && ops[i].token == token)
  }

  /**
   * Single use: in any run that does not issue `token` again, it is consumed
   * successfully at most once, and not at all once it is absent.
   */
  lemma {:induction false} ConsumedAtMostOnce(t: TokenTable, ops: seq<TokenOp>, token: string, deviceId: string, deviceName: string)
    requires NeverIssued(ops, token)
    ensures ConsumeSuccesses(t, ops, token, deviceId, deviceName) <= (if token in t then 1 else 0)
    decreases |ops|
  {
    if ops != [] {
      var t' := Step(t, ops[0], deviceId, deviceName);
      assert NeverIssued(ops[1..], token) by {
        forall i | 0 <= i < |ops[1..]| ensures !(ops[1..][i].Generate? && ops[1..][i].token == token) {
          assert ops[1..][i] == ops[i + 1];
        }
      }
      ConsumedAtMostOnce(t', ops[1..], token, deviceId, deviceName);
      assert token !in t ==> token !in t';
      if ops[0].Consume? && ops[0].token == token {
        assert token !in t';
      }
    }
  }

  /** Once a token is absent, no later validation or consumption succeeds until it is issued again. */
  lemma {:induction false} AbsentStaysInvalid(t: TokenTable, ops: seq<TokenOp>, token: string, deviceId: string, deviceName: string)
    requires token !in t && NeverIssued(ops, token)
    ensures token !in Run(t, ops, deviceId, deviceName)
    decreases |ops|
  {
    if ops != [] {
      assert NeverIssued(ops[1..], token) by {
        forall i | 0 <= i < |ops[1..]| ensures !(ops[1..][i].Generate? && ops[1..][i].token == token) {
          assert ops[1..][i] == ops[i + 1];
        }
      }
      AbsentStaysInvalid(Step(t, ops[0], deviceId, deviceName), ops[1..], token, deviceId, deviceName);
    }
  }

  /** The table after every operation of `ops`, in turn. */
  function Run(t: TokenTable, ops: seq<TokenOp>, deviceId: string, deviceName: string): TokenTable
    decreases |ops|
  {
    if ops == [] then t else Run(Step(t, ops[0], deviceId, deviceName), ops[1..], deviceId, deviceName)
  }

  /** PairingManager: issues, validates, consumes and sweeps tokens. */
  class PairingManager {
    const deviceId: string
    const deviceName: string
    var activeTokens: TokenTable

    ghost predicate Valid()
      reads this
    {
      TableKeyed(activeTokens)
    }

    constructor (deviceId: string, deviceName: string)
      ensures Valid() && this.deviceId == deviceId && this.deviceName == deviceName
      ensures activeTokens == map[]
    {
      this.deviceId := deviceId;
      this.deviceName := deviceName;
      activeTokens := map[];
    }

    /**
     * generate_token: draws a token of the default length and records it as
     * active until `now + ttlSeconds`; a colliding string overwrites the older record.
     */
    method GenerateToken(now: int, draws: nat -> Utils.AlphabetIndex, ttlSeconds: int := DefaultTtlSeconds)
      returns (token: string)
      requires Valid()
      modifies this
      ensures Valid()
      ensures token == Utils.GeneratePairingToken(draws) && |token| == Utils.DefaultTokenLength
      ensures activeTokens == Step(old(activeTokens), Generate(token, now, ttlSeconds), deviceId, deviceName)
      ensures IsValidAt(activeTokens, token, now) <==> ttlSeconds >= 0
    {
      token := Utils.GeneratePairingToken(draws);
      activeTokens := activeTokens[token := PairingToken(token, now, now + ttlSeconds, deviceId, deviceName)];
    }

    /** validate_token. */
    method ValidateToken(token: string, now: int) returns (valid: bool)
      requires Valid()
      modifies this
      ensures Valid()
      ensures valid == IsValidAt(old(activeTokens), token, now)
      ensures activeTokens == AfterValidate(old(activeTokens), token, now)
    {
      if token !in activeTokens {
        return false;
      }
      var record := activeTokens[token];
      if now > record.expiresAt {
        activeTokens := activeTokens - {token};
        return false;
      }
      return true;
    }

    /** consume_token: true at most once per issued token. */
    method ConsumeToken(token: string, now: int) returns (consumed: bool)
      requires Valid()
      modifies this
      ensures Valid()
      ensures consumed == IsValidAt(old(activeTokens), token, now)
      ensures activeTokens == AfterConsume(old(activeTokens), token, now)
      ensures token !in activeTokens
    {
      var valid := ValidateToken(token, now);
      if valid {
        activeTokens := activeTokens - {token};
        return true;
      }
      return false;
    }

    /** get_active_tokens: each record with `expires_at > now`, once; the table is untouched. */
    method GetActiveTokens(now: int) returns (active: seq<PairingToken>)
      requires Valid()
      ensures forall x :: x in active <==> IsActiveAt(activeTokens, x, now)
      ensures forall i, j :: 0 <= i < j < |active| ==> active[i].token != active[j].token
    {
      active := [];
      var rest := activeTokens.Keys;
      while rest != {}
        invariant rest <= activeTokens.Keys
        invariant forall x :: x in active <==> IsActiveAt(activeTokens, x, now) && x.token !in rest
        invariant forall i, j :: 0 <= i < j < |active| ==> active[i].token != active[j].token
        decreases |rest|
      {
        var k :| k in rest;
        var record := activeTokens[k];
        if record.expiresAt > now {
          active := active + [record];
        }
        rest := rest - {k};
      }
    }

    /** One iteration of `_cleanup_expired_tokens`: deletes the expired tokens one by one. */
    method SweepExpired(now: int)
      requires Valid()
      modifies this
      ensures Valid()
      ensures activeTokens == old(activeTokens) - ExpiredKeys(old(activeTokens), now)
      ensures forall k :: k in activeTokens <==> k in old(activeTokens) && old(activeTokens)[k].expiresAt > now
    {
      var expired := ExpiredKeys(activeTokens, now);
      ghost var before := activeTokens;
      while expired != {}
        invariant expired <= ExpiredKeys(before, now)
        invariant activeTokens == before - (ExpiredKeys(before, now) - expired)
        decreases |expired|
      {
        var k :| k in expired;
        activeTokens := activeTokens - {k};
        expired := expired - {k};
      }
    }
  }

  /** The device record that pairing stores for a peer: trusted, both capabilities on. */
  function PairedDevice(peerDeviceId: string, peerDeviceName: string, peerCertFingerprint: string, now: int): (d: Storage.Device)
    ensures d.id == peerDeviceId && d.name == peerDeviceName && d.certificateFingerprint == peerCertFingerprint
    ensures d.isTrusted && d.lastSeenTimestamp.None? && d.addedTimestamp == now
    ensures d.capabilities == map["sync_text" := true, "sync_images" := true]
  {
    Storage.Device(peerDeviceId, peerDeviceName, peerCertFingerprint, now, None, true,
                   map["sync_text" := true, "sync_images" := true])
  }

  /** PairingWorkflow: the host and client ends of the trust handshake. */
  class PairingWorkflow {
    const pairingManager: PairingManager
    const storage: Storage.ClipboardDatabase

    constructor (pairingManager: PairingManager, storage: Storage.ClipboardDatabase)
      ensures this.pairingManager == pairingManager && this.storage == storage
    {
      this.pairingManager := pairingManager;
      this.storage := storage;
    }

    /** initiate_pairing_as_host: a fresh token with the default lifetime. */
    method InitiatePairingAsHost(now: int, draws: nat -> Utils.AlphabetIndex) returns (token: string)
      requires pairingManager.Valid()
      modifies pairingManager
      ensures pairingManager.Valid()
      ensures token == Utils.GeneratePairingToken(draws)
      ensures pairingManager.activeTokens
              == old(pairingManager.activeTokens)[token := PairingToken(token, now, now + DefaultTtlSeconds,
                                                                     pairingManager.deviceId, pairingManager.deviceName)]
    {
      token := pairingManager.GenerateToken(now, draws);
    }

    /**
     * complete_pairing_as_host: only a token valid at `now` records the peer,
     * under the fingerprint seen on its session, as trusted; the token is
     * gone afterwards whether pairing succeeded or found it expired.
     */
    method CompletePairingAsHost(token: string, peerDeviceId: string, peerDeviceName: string,
                                 peerCertFingerprint: string, now: int) returns (paired: bool)
      requires pairingManager.Valid() && storage.Valid()
      modifies pairingManager, storage
      ensures pairingManager.Valid() && storage.Valid()
      ensures paired == IsValidAt(old(pairingManager.activeTokens), token, now)
      ensures pairingManager.activeTokens == old(pairingManager.activeTokens) - {token}
      ensures storage.devices == if paired && old(storage.connected)
                                 then old(storage.devices)[peerDeviceId := PairedDevice(peerDeviceId, peerDeviceName, peerCertFingerprint, now)]
                                 else old(storage.devices)
      ensures storage.items == old(storage.items) && storage.connected == old(storage.connected)
    {
      ValidateAndConsumeFrames(pairingManager.activeTokens, token, now);
      var valid := pairingManager.ValidateToken(token, now);
      if !valid {
        return false;
      }
      storage.AddDevice(PairedDevice(peerDeviceId, peerDeviceName, peerCertFingerprint, now));
      var _ := pairingManager.ConsumeToken(token, now);
      return true;
    }

    /** complete_pairing_as_client: records the peer as trusted unconditionally. */
    method CompletePairingAsClient(peerDeviceId: string, peerDeviceName: string,
                                   peerCertFingerprint: string, now: int) returns (paired: bool)
      requires storage.Valid()
      modifies storage
      ensures storage.Valid() && paired
      ensures storage.devices == if old(storage.connected)
                                 then old(storage.devices)[peerDeviceId := PairedDevice(peerDeviceId, peerDeviceName, peerCertFingerprint, now)]
                                 else old(storage.devices)
      ensures storage.items == old(storage.items) && storage.connected == old(storage.connected)
    {
      storage.AddDevice(PairedDevice(peerDeviceId, peerDeviceName, peerCertFingerprint, now));
      return true;
    }
  }
}
