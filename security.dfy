/**
 * The security engine: a first-match firewall with permanent block and allow
 * sets, the intrusion response that blacklists a source and raises the threat
 * level, a key store keyed by creation time, and the rule check every token
 * transfer must pass.
 *
 * Collaborators whose code is not part of the model enter as parameters:
 * `FirewallRule::matches` and `TokenRule::validate` as predicates, the
 * intrusion analysis of `IntrusionDetectionSystem::analyze_packet` as a
 * predicate on packets, AES-256-GCM as a sealing function that may fail,
 * `get_current_key_id` as the key id it returns, and the operating system's
 * random bytes and clock as values.
 */
module Security {
  import opened Common
  import Kernel

  // ---------------------------------------------------------------------------
  // Shared enumerations

  /** `ThreatLevel`: process-wide escalation state. */
  datatype ThreatLevel = Low | Medium | High | Critical

  /** `ActiveDefense`: the defensive postures the engine may switch on. */
  datatype ActiveDefense = PortHoneypot | TrafficShaping | ConnectionLimiting | ProtocolValidation | RateLimiting

  /** `RuleAction`: one enumeration serves both the firewall and the token rules. */
  datatype RuleAction = Allow | Block | BlockSystem | RequireApproval | BlockAndAlert

  /** `SecurityError`. */
  datatype SecurityError = EncryptionFailed | DecryptionFailed | KeyNotFound | InvalidSignature | RuleViolation | TokenInsufficient

  // ---------------------------------------------------------------------------
  // Firewall

  /** The protocol a rule or packet names; `Any` in a rule matches every protocol. */
  datatype Protocol = Any | TCP | UDP

  datatype Direction = Inbound | Outbound

  /** `FirewallRule`: an inclusive port range and an address range are optional. */
  datatype FirewallRule = FirewallRule(
    name: string,
    action: RuleAction,
    protocol: Protocol,
    portRange: Option<(nat, nat)>,
    ipRange: Option<(string, string)>,
    direction: Direction)

  /** A packet as handed in by the network layer; only its source address is read by the firewall itself. */
  datatype NetworkPacket = NetworkPacket(
    sourceIp: string,
    destinationIp: string,
    protocol: Protocol,
    port: nat,
    direction: Direction)

  /** The five rules `add_default_rules` appends, in evaluation order. */
  function DefaultRules(): seq<FirewallRule> {
    [ FirewallRule("حظر المنافذ النظامية", Block, Any, Some((0, 1023)), None, Inbound),
      FirewallRule("السماح لـ SSH", Allow, TCP, Some((22, 22)), None, Inbound),
      FirewallRule("السماح للويب", Allow, TCP, Some((80, 443)), None, Inbound),
      FirewallRule("السياسة الافتراضية", Block, Any, None, None, Inbound),
      FirewallRule("السماح للصادر", Allow, Any, None, None, Outbound) ]
  }

  /** The index of the rule that decides `packet`: the first one that matches. */
  function FirstMatch(rules: seq<FirewallRule>, packet: NetworkPacket, matches: (FirewallRule, NetworkPacket) -> bool): Option<nat> {
    Position(rules, (rule: FirewallRule) => matches(rule, packet))
  }

  /** `Firewall`: the rule list, the permanent block and allow sets, and the on/off switch. */
  class Firewall {
    var rules: seq<FirewallRule>
    var blockedIps: set<string>
    var allowedIps: set<string>
    var isActive: bool

    /** `Firewall::new`: inactive, no rules, both sets empty. */
    constructor ()
      ensures rules == [] && blockedIps == {} && allowedIps == {} && !isActive
    {
      rules := [];
      blockedIps := {};
      allowedIps := {};
      isActive := false;
    }

    /** `activate`: switches the firewall on and appends the default rules. */
    method Activate()
      modifies this`isActive, this`rules
      ensures isActive
      ensures rules == old(rules) + DefaultRules()
    {
      isActive := true;
      AddDefaultRules();
    }

    /** `add_default_rules`: appends exactly the five default rules, in order. */
    method AddDefaultRules()
      modifies this`rules
      ensures rules == old(rules) + DefaultRules()
    {
      rules := rules + DefaultRules();
    }

    /**
     * `check_packet`: everything passes an inactive firewall; otherwise a
     * blocked source is refused before anything else is consulted, an allowed
     * source is accepted, and the first matching rule decides the rest, with
     * refusal when no rule matches.
     */
    function CheckPacket(packet: NetworkPacket, matches: (FirewallRule, NetworkPacket) -> bool): (accepted: bool)
      reads this
      ensures !isActive ==> accepted
      ensures isActive && packet.sourceIp in blockedIps ==> !accepted
      ensures isActive && packet.sourceIp !in blockedIps && packet.sourceIp in allowedIps ==> accepted
      ensures isActive && packet.sourceIp !in blockedIps && packet.sourceIp !in allowedIps ==>
        (accepted <==> exists i :: 0 <= i < |rules| && matches(rules[i], packet) && rules[i].action == Allow &&
                                   forall j :: 0 <= j < i ==> !matches(rules[j], packet))
      ensures isActive && packet.sourceIp !in allowedIps && (forall i :: 0 <= i < |rules| ==> !matches(rules[i], packet)) ==> !accepted
    {
      if !isActive then true
      else if packet.sourceIp in blockedIps then false
      else if packet.sourceIp in allowedIps then true
      else
        match FirstMatch(rules, packet, matches)
        case None => false
        case Some(i) => rules[i].action == Allow
    }

    /** `block_ip`: adds the address to the permanent block set and changes nothing else. */
    method BlockIp(ip: string)
      modifies this`blockedIps
      ensures blockedIps == old(blockedIps) + {ip}
    {
      blockedIps := blockedIps + {ip};
    }

    /** `allow_ip`: adds the address to the permanent allow set and changes nothing else. */
    method AllowIp(ip: string)
      modifies this`allowedIps
      ensures allowedIps == old(allowedIps) + {ip}
    {
      allowedIps := allowedIps + {ip};
    }
  }

  /** A port lies in an optional inclusive range; no range means every port. */
  predicate PortInRange(range: Option<(nat, nat)>, port: nat) {
    range.None? || (range.value.0 <= port <= range.value.1)
  }

  /**
   * A reading of `FirewallRule::matches`, whose code is not part of the model:
   * same direction, a protocol the rule names (or `Any`), and a port inside the
   * rule's range. Address ranges are not interpreted; no default rule has one.
   */
  predicate PortRuleMatches(rule: FirewallRule, packet: NetworkPacket) {
    rule.direction == packet.direction &&
    (rule.protocol == Any || rule.protocol == packet.protocol) &&
    PortInRange(rule.portRange, packet.port)
  }

  /**
   * Under that reading the default rules decide every packet by direction and
   * port alone: outbound traffic meets rule 5, inbound traffic to ports 0..1023
   * meets rule 1 and any other inbound traffic meets rule 4. The SSH and web
   * rules (2 and 3) cover only ports inside 0..1023 and are never reached.
   */
  lemma DefaultRulesFirstMatch(packet: NetworkPacket)
    ensures FirstMatch(DefaultRules(), packet, PortRuleMatches) ==
      if packet.direction == Outbound then Some(4)
      else if packet.port <= 1023 then Some(0)
      else Some(3)
  {
    var rules := DefaultRules();
    var p := (rule: FirewallRule) => PortRuleMatches(rule, packet);
    assert rules[1..][1..][1..][1..][1..] == [];
    if packet.direction == Inbound && packet.port > 1023 {
      assert !p(rules[1]) && !p(rules[2]);
    }
  }

  /**
   * Consequence for a firewall switched on with the default rules: a source in
   * neither set gets out but never in, so inbound TCP to port 22 or 80 is
   * refused by rule 1 before the rules that would allow it.
   */
  lemma DefaultPolicy(firewall: Firewall, packet: NetworkPacket)
    requires firewall.isActive && firewall.rules == DefaultRules()
    requires packet.sourceIp !in firewall.blockedIps && packet.sourceIp !in firewall.allowedIps
    ensures firewall.CheckPacket(packet, PortRuleMatches) <==> packet.direction == Outbound
  {
    DefaultRulesFirstMatch(packet);
  }

  // ---------------------------------------------------------------------------
  // Encryption engine

  type Byte = b: int | 0 <= b < 256

  /** `key_rotation_interval`: one day, in seconds. */
  const KeyRotationInterval: nat := 86400

  /** `EncryptionKey`: its id is its creation time. */
  datatype EncryptionKey = EncryptionKey(id: nat, value: seq<Byte>, nonce: seq<Byte>, createdAt: nat, expiresAt: nat)

  datatype EncryptionAlgorithm = Aes256Gcm

  /** `EncryptedData`: the ciphertext with the id of its key and the nonce used. */
  datatype EncryptedData = EncryptedData(ciphertext: seq<Byte>, keyId: nat, algorithm: EncryptionAlgorithm, iv: seq<Byte>)

  /** The AES-256-GCM sealing step: key bytes, nonce and plaintext to a ciphertext, or a failure. */
  type Seal = (seq<Byte>, seq<Byte>, seq<Byte>) -> Option<seq<Byte>>

  /** `EncryptionEngine`: a map from creation time to key, and the time of the latest rotation. */
  class EncryptionEngine {
    var masterKey: seq<Byte>
    const keyRotationInterval: nat
    var lastRotation: nat
    var activeKeys: map<nat, EncryptionKey>

    /** Every stored key sits under its own id, was made with the engine's interval, and the latest one is present. */
    ghost predicate Valid()
      reads this
    {
      |masterKey| == 32 &&
      (forall id :: id in activeKeys ==>
         activeKeys[id].id == id && activeKeys[id].createdAt == id &&
         activeKeys[id].expiresAt == id + keyRotationInterval &&
         |activeKeys[id].value| == 32 && |activeKeys[id].nonce| == 12) &&
      (activeKeys != map[] ==> lastRotation in activeKeys)
    }

    /** `EncryptionEngine::new`: an all-zero master key, a one-day interval, no keys. */
    constructor ()
      ensures Valid()
      ensures masterKey == seq(32, _ => 0) && keyRotationInterval == KeyRotationInterval
      ensures lastRotation == 0 && activeKeys == map[]
    {
      masterKey := seq(32, _ => 0);
      keyRotationInterval := KeyRotationInterval;
      lastRotation := 0;
      activeKeys := map[];
    }

    /** `initialize`: takes 32 random bytes as master key, then generates the first key. */
    method Initialize(seed: seq<Byte>, keyValue: seq<Byte>, nonce: seq<Byte>, now: nat)
      requires Valid()
      requires |seed| == 32 && |keyValue| == 32 && |nonce| == 12
      modifies this`masterKey, this`lastRotation, this`activeKeys
      ensures Valid()
      ensures masterKey == seed
      ensures activeKeys == old(activeKeys)[now := EncryptionKey(now, keyValue, nonce, now, now + keyRotationInterval)]
      ensures lastRotation == now
    {
      masterKey := seed;
      GenerateNewKey(keyValue, nonce, now);
    }

    /**
     * `generate_new_key`: stores a key under the current time that expires one
     * interval later and records the time as the latest rotation. Keys made
     * earlier stay in the map, except one made at the very same time, which the
     * insertion replaces.
     */
    method GenerateNewKey(keyValue: seq<Byte>, nonce: seq<Byte>, now: nat)
      requires Valid()
      requires |keyValue| == 32 && |nonce| == 12
      modifies this`lastRotation, this`activeKeys
      ensures Valid()
      ensures activeKeys == old(activeKeys)[now := EncryptionKey(now, keyValue, nonce, now, now + keyRotationInterval)]
      ensures lastRotation == now
      ensures forall id :: id in old(activeKeys) && id != now ==> id in activeKeys && activeKeys[id] == old(activeKeys)[id]
    {
      var key := EncryptionKey(now, keyValue, nonce, now, now + keyRotationInterval);
      activeKeys := activeKeys[now := key];
      lastRotation := now;
    }

    /**
     * `encrypt`: fails with `KeyNotFound` when the current key id is not in the
     * map; otherwise seals the data with that key and the key's own stored
     * nonce, which is returned as the IV.
     */
    function Encrypt(data: seq<Byte>, currentKeyId: nat, seal: Seal): (r: Result<EncryptedData, SecurityError>)
      reads this
      ensures r == Err(KeyNotFound) <==> currentKeyId !in activeKeys
      ensures r == Err(EncryptionFailed) <==>
        currentKeyId in activeKeys && seal(activeKeys[currentKeyId].value, activeKeys[currentKeyId].nonce, data).None?
      ensures r.Err? ==> r.error == KeyNotFound || r.error == EncryptionFailed
      ensures r.Ok? ==>
        currentKeyId in activeKeys &&
        r.value.keyId == currentKeyId && r.value.algorithm == Aes256Gcm &&
        r.value.iv == activeKeys[currentKeyId].nonce &&
        seal(activeKeys[currentKeyId].value, activeKeys[currentKeyId].nonce, data) == Some(r.value.ciphertext)
    {
      if currentKeyId !in activeKeys then Err(KeyNotFound)
      else
        var key := activeKeys[currentKeyId];
        match seal(key.value, key.nonce, data)
        case None => Err(EncryptionFailed)
        case Some(ciphertext) => Ok(EncryptedData(ciphertext, currentKeyId, Aes256Gcm, key.nonce))
    }
  }

  /**
   * Once a key has been generated, encrypting under the latest rotation always
   * finds its key.
   */
  lemma LatestKeyFound(engine: EncryptionEngine, data: seq<Byte>, seal: Seal)
    requires engine.Valid() && engine.activeKeys != map[]
    ensures engine.Encrypt(data, engine.lastRotation, seal) != Err(KeyNotFound)
  {
  }

  /**
   * The nonce belongs to the key, not to the message: two encryptions under the
   * same key carry the same IV.
   */
  lemma NoncePerKey(engine: EncryptionEngine, a: seq<Byte>, b: seq<Byte>, keyId: nat, seal: Seal)
    requires engine.Encrypt(a, keyId, seal).Ok? && engine.Encrypt(b, keyId, seal).Ok?
    ensures engine.Encrypt(a, keyId, seal).value.iv == engine.Encrypt(b, keyId, seal).value.iv
  {
  }

  // ---------------------------------------------------------------------------
  // Token protection

  /** `RuleCondition`. */
  datatype RuleCondition = BalanceLessThan(threshold: nat) | TransferGreaterThan(limit: nat) | SuspiciousPattern

  /** `TokenRule`. */
  datatype TokenRule = TokenRule(name: string, condition: RuleCondition, action: RuleAction)

  /** The three rules `add_security_rules` appends, in order. */
  function DefaultTokenRules(minBalance: nat): seq<TokenRule> {
    [ TokenRule("الحد الأدنى للرصيد", BalanceLessThan(minBalance), BlockSystem),
      TokenRule("الحد الأقصى للتحويل", TransferGreaterThan(1000), RequireApproval),
      TokenRule("الكشف عن العمليات المشبوهة", SuspiciousPattern, BlockAndAlert) ]
  }

  /** The index of the first rule a transaction fails, if any. */
  function FirstFailingRule<T>(rules: seq<TokenRule>, transaction: T, validate: (TokenRule, T) -> bool): Option<nat> {
    Position(rules, (rule: TokenRule) => !validate(rule, transaction))
  }

  /** `TokenProtection`: the ordered rule list every token transaction is checked against. */
  class TokenProtection {
    const contractAddress: string
    const minBalance: nat
    var securityRules: seq<TokenRule>

    /** `TokenProtection::new`: the kernel's floor and contract, no rules yet. */
    constructor ()
      ensures contractAddress == Kernel.ContractAddress && minBalance == Kernel.MinTokens
      ensures securityRules == []
    {
      contractAddress := Kernel.ContractAddress;
      minBalance := Kernel.MinTokens;
      securityRules := [];
    }

    /** `activate`: installs the default rules. */
    method Activate()
      modifies this`securityRules
      ensures securityRules == old(securityRules) + DefaultTokenRules(minBalance)
    {
      AddSecurityRules();
    }

    /** `add_security_rules`: appends exactly the three default rules, in order. */
    method AddSecurityRules()
      modifies this`securityRules
      ensures securityRules == old(securityRules) + DefaultTokenRules(minBalance)
    {
      securityRules := securityRules + DefaultTokenRules(minBalance);
    }

    /**
     * `validate_transaction`: accepts exactly when every rule validates the
     * transaction. The scan stops at the first rule that fails; only an
     * accepted transaction reaches the transaction monitor.
     */
    function ValidateTransaction<T>(transaction: T, validate: (TokenRule, T) -> bool): (accepted: bool)
      reads this
      ensures accepted <==> forall i :: 0 <= i < |securityRules| ==> validate(securityRules[i], transaction)
    {
      FirstFailingRule(securityRules, transaction, validate).None?
    }
  }

  // ---------------------------------------------------------------------------
  // The engine that ties them together

  /** The postures `activate_emergency_defenses` appends, in order. */
  function EmergencyDefenses(): seq<ActiveDefense> {
    [PortHoneypot, TrafficShaping, ConnectionLimiting]
  }

  /** `HarisSecurity`: the threat level, the active defenses and the components it drives. */
  class HarisSecurity {
    var threatLevel: ThreatLevel
    var activeDefenses: seq<ActiveDefense>
    const firewall: Firewall
    const encryptionEngine: EncryptionEngine
    const tokenProtection: TokenProtection

    /**
     * `HarisSecurity::new` followed by `initialize`: threat level `Low`, the
     * firewall switched on with its default rules, the first key generated and
     * the token rules installed. `defenses` are what `activate_defenses`
     * establishes.
     */
    constructor (defenses: seq<ActiveDefense>, seed: seq<Byte>, keyValue: seq<Byte>, nonce: seq<Byte>, now: nat)
      requires |seed| == 32 && |keyValue| == 32 && |nonce| == 12
      ensures threatLevel == Low && activeDefenses == defenses
      ensures fresh(firewall) && fresh(encryptionEngine) && fresh(tokenProtection)
      ensures firewall.isActive && firewall.rules == DefaultRules()
      ensures firewall.blockedIps == {} && firewall.allowedIps == {}
      ensures encryptionEngine.Valid() && encryptionEngine.masterKey == seed && encryptionEngine.lastRotation == now
      ensures encryptionEngine.activeKeys == map[now := EncryptionKey(now, keyValue, nonce, now, now + KeyRotationInterval)]
      ensures tokenProtection.securityRules == DefaultTokenRules(Kernel.MinTokens)
    {
      threatLevel := Low;
      activeDefenses := defenses;
      firewall := new Firewall();
      encryptionEngine := new EncryptionEngine();
      tokenProtection := new TokenProtection();
      new;
      firewall.Activate();
      encryptionEngine.Initialize(seed, keyValue, nonce, now);
      tokenProtection.Activate();
    }

    /**
     * `monitor_network`: a packet the firewall refuses is dropped without
     * analysis and changes nothing; an accepted packet that the analysis flags
     * triggers the intrusion response and is dropped too; any other packet
     * passes. After a response, an active firewall refuses every packet from
     * that source, whatever the rules say.
     */
    method MonitorNetwork(packet: NetworkPacket, matches: (FirewallRule, NetworkPacket) -> bool, isIntrusion: NetworkPacket -> bool)
      returns (passed: bool)
      modifies this`threatLevel, this`activeDefenses, firewall`blockedIps
      ensures passed <==> old(firewall.CheckPacket(packet, matches)) && !isIntrusion(packet)
      ensures old(firewall.CheckPacket(packet, matches)) && isIntrusion(packet) ==>
        firewall.blockedIps == old(firewall.blockedIps) + {packet.sourceIp} &&
        threatLevel == Critical &&
        activeDefenses == old(activeDefenses) + EmergencyDefenses()
      ensures !(old(firewall.CheckPacket(packet, matches)) && isIntrusion(packet)) ==>
        firewall.blockedIps == old(firewall.blockedIps) &&
        threatLevel == old(threatLevel) &&
        activeDefenses == old(activeDefenses)
      ensures old(firewall.CheckPacket(packet, matches)) && isIntrusion(packet) && firewall.isActive ==>
        forall later: NetworkPacket :: later.sourceIp == packet.sourceIp ==> !firewall.CheckPacket(later, matches)
    {
      if !firewall.CheckPacket(packet, matches) {
        return false;
      }
      if isIntrusion(packet) {
        RespondToIntrusion(packet);
        return false;
      }
      passed := true;
    }

    /** `respond_to_intrusion`: blacklists the source, then activates the emergency defenses. */
    method RespondToIntrusion(packet: NetworkPacket)
      modifies this`threatLevel, this`activeDefenses, firewall`blockedIps
      ensures firewall.blockedIps == old(firewall.blockedIps) + {packet.sourceIp}
      ensures threatLevel == Critical
      ensures activeDefenses == old(activeDefenses) + EmergencyDefenses()
    {
      firewall.BlockIp(packet.sourceIp);
      ActivateEmergencyDefenses();
    }

    /**
     * `activate_emergency_defenses`: raises the threat level to `Critical` and
     * appends three postures, without removing duplicates.
     */
    method ActivateEmergencyDefenses()
      modifies this`threatLevel, this`activeDefenses
      ensures threatLevel == Critical
      ensures activeDefenses == old(activeDefenses) + EmergencyDefenses()
    {
      threatLevel := Critical;
      activeDefenses := activeDefenses + [PortHoneypot];
      activeDefenses := activeDefenses + [TrafficShaping];
      activeDefenses := activeDefenses + [ConnectionLimiting];
    }

    /** `protect_token_transaction`: the verdict of the token rules. */
    function ProtectTokenTransaction<T>(transaction: T, validate: (TokenRule, T) -> bool): (accepted: bool)
      reads this, tokenProtection
      ensures accepted <==> forall i :: 0 <= i < |tokenProtection.securityRules| ==> validate(tokenProtection.securityRules[i], transaction)
    {
      tokenProtection.ValidateTransaction(transaction, validate)
    }
  }
}
