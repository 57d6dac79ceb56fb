/** The sender config table, together with the references that mail rows hold into it. */
module SenderConfigs {
  import opened Models
  import opened Text

  datatype SenderConfig = SenderConfig(
    clientTokenId: Uuid,
    senderEmail: string,
    tenantId: string,
    clientId: string,
    encryptedSecret: string,
    isActive: bool)

  /** `mails` maps each mail row to its `sender_config_id` column. */
  datatype Table = Table(configs: map<Uuid, SenderConfig>, mails: map<Uuid, Option<Uuid>>)

  /** Encryption may fail; decryption undoes a successful encryption. */
  datatype Codec = Codec(encrypt: string -> Option<string>, decrypt: string -> Option<string>)

  ghost predicate Sound(codec: Codec)
  {
    forall secret: string :: codec.encrypt(secret).Some? ==>
      codec.decrypt(codec.encrypt(secret).value) == Some(secret)
  }

  datatype CreateRequest = CreateRequest(senderEmail: string, tenantId: string, clientId: string, clientSecret: string)

  datatype UpdateRequest = UpdateRequest(tenantId: string, clientId: string, clientSecret: string, isActive: Option<bool>)

  datatype Op =
    | Create(id: Uuid, clientTokenId: Uuid, create: CreateRequest)
    | Update(id: Uuid, update: UpdateRequest)
    | Delete(id: Uuid)
    | InsertMail(mailId: Uuid, configId: Option<Uuid>)

  // ---- What the operations mean

  /** The unique constraint on client and address. */
  predicate Taken(t: Table, clientTokenId: Uuid, email: string)
  {
    exists id :: id in t.configs && t.configs[id].clientTokenId == clientTokenId && t.configs[id].senderEmail == email
  }

  /** The foreign key: some mail row points at the config. */
  predicate Referenced(t: Table, id: Uuid)
  {
    exists m :: m in t.mails && t.mails[m] == Some(id)
  }

  predicate CanCreate(t: Table, org: string, codec: Codec, id: Uuid, clientTokenId: Uuid, req: CreateRequest)
  {
    && InDomain(req.senderEmail, org)
    && codec.encrypt(req.clientSecret).Some?
    && id !in t.configs
    && !Taken(t, clientTokenId, ToLower(req.senderEmail))
  }

  /** The primary key and the foreign key of the mails table. */
  predicate CanInsert(t: Table, mailId: Uuid, configId: Option<Uuid>)
  {
    mailId !in t.mails && (configId.Some? ==> configId.value in t.configs)
  }

  predicate CanUpdate(t: Table, codec: Codec, id: Uuid, req: UpdateRequest)
  {
    id in t.configs && (req.clientSecret != "" ==> codec.encrypt(req.clientSecret).Some?)
  }

  function Updated(codec: Codec, c: SenderConfig, req: UpdateRequest): SenderConfig
    requires req.clientSecret != "" ==> codec.encrypt(req.clientSecret).Some?
  {
    c.(tenantId := if req.tenantId != "" then req.tenantId else c.tenantId,
       clientId := if req.clientId != "" then req.clientId else c.clientId,
       encryptedSecret := if req.clientSecret != "" then codec.encrypt(req.clientSecret).value else c.encryptedSecret,
       isActive := if req.isActive.Some? then req.isActive.value else c.isActive)
  }

  function Apply(org: string, codec: Codec, t: Table, op: Op): Table
  {
    match op
    case Create(id, clientTokenId, req) =>
      if CanCreate(t, org, codec, id, clientTokenId, req) then
        t.(configs := t.configs[id := SenderConfig(clientTokenId, ToLower(req.senderEmail), req.tenantId, req.clientId,
                                                   codec.encrypt(req.clientSecret).value, true)])
      else t
    case Update(id, req) =>
      if CanUpdate(t, codec, id, req) then t.(configs := t.configs[id := Updated(codec, t.configs[id], req)]) else t
    case Delete(id) =>
      if id in t.configs && !Referenced(t, id) then t.(configs := t.configs - {id}) else t
    case InsertMail(mailId, configId) =>
      if CanInsert(t, mailId, configId) then t.(mails := t.mails[mailId := configId]) else t
  }

  function ApplyAll(org: string, codec: Codec, ops: seq<Op>): Table
  {
    if ops == [] then Table(map[], map[])
    else Apply(org, codec, ApplyAll(org, codec, ops[..|ops| - 1]), ops[|ops| - 1])
  }

  // ---- The service

  datatype Error = NotOrgDomain | EncryptFailed | AlreadyExists | NotFound | DecryptFailed | DatabaseFailed

  /** The parameters `dbOk`, `readOk` and `saveOk` say whether the database can be reached; a call
      that violates a constraint fails in any case. */
  class SenderConfigService {
    const org: string
    const codec: Codec
    var table: Table

    constructor (org: string, codec: Codec)
      ensures this.org == org && this.codec == codec && table == ApplyAll(org, codec, [])
    {
      this.org, this.codec := org, codec;
      table := Table(map[], map[]);
    }

    /** `id` is the freshly generated UUID. */
    method CreateConfig(id: Uuid, clientTokenId: Uuid, req: CreateRequest, dbOk: bool)
      returns (r: Result<SenderConfig, Error>)
      modifies this
      ensures table == if r.Ok? then Apply(org, codec, old(table), Create(id, clientTokenId, req)) else old(table)
      ensures r.Ok? <==> dbOk && CanCreate(old(table), org, codec, id, clientTokenId, req)
      ensures r.Ok? ==>
        && r.value.clientTokenId == clientTokenId && r.value.senderEmail == ToLower(req.senderEmail)
        && r.value.tenantId == req.tenantId && r.value.clientId == req.clientId && r.value.isActive
        && codec.encrypt(req.clientSecret) == Some(r.value.encryptedSecret)
      ensures r.Err? ==>
        r.error == if !InDomain(req.senderEmail, org) then NotOrgDomain
                   else if codec.encrypt(req.clientSecret).None? then EncryptFailed
                   else if !dbOk then DatabaseFailed else AlreadyExists
      ensures r.Ok? ==> id in table.configs && r.value == table.configs[id]
    {
      if !HasSuffix(ToLower(req.senderEmail), ToLower(org)) {
        return Err(NotOrgDomain);
      }
      var encrypted := codec.encrypt(req.clientSecret);
      if encrypted.None? {
        return Err(EncryptFailed);
      }
      var config := SenderConfig(clientTokenId, ToLower(req.senderEmail), req.tenantId, req.clientId,
                                 encrypted.value, true);
      if !dbOk {
        return Err(DatabaseFailed);
      }
      if id in table.configs || Taken(table, clientTokenId, config.senderEmail) {
        return Err(AlreadyExists);
      }
      table := table.(configs := table.configs[id := config]);
      return Ok(config);
    }

    /** The active config of a client for an address, whatever its capitalisation. A database error
        and an unknown address look the same to the caller. */
    method GetBySenderEmail(clientTokenId: Uuid, senderEmail: string, dbOk: bool) returns (r: Option<Uuid>)
      ensures r.Some? ==> dbOk && Matches(table, clientTokenId, senderEmail, r.value)
      ensures r.None? && dbOk ==> forall id :: !Matches(table, clientTokenId, senderEmail, id)
    {
      if !dbOk {
        return None;
      }
      var email := ToLower(senderEmail);
      var left := table.configs.Keys;
      while left != {}
        invariant left <= table.configs.Keys
        invariant forall id :: Matches(table, clientTokenId, senderEmail, id) ==> id in left
      {
        var id :| id in left;
        var c := table.configs[id];
        if c.clientTokenId == clientTokenId && c.senderEmail == email && c.isActive {
          return Some(id);
        }
        left := left - {id};
      }
      return None;
    }

    method UpdateConfig(id: Uuid, req: UpdateRequest, readOk: bool, saveOk: bool)
      returns (r: Result<SenderConfig, Error>)
      modifies this
      ensures table == if r.Ok? then Apply(org, codec, old(table), Update(id, req)) else old(table)
      ensures r.Ok? <==> readOk && saveOk && CanUpdate(old(table), codec, id, req)
      ensures r.Ok? ==>
        var before := old(table).configs[id];
        && r.value.clientTokenId == before.clientTokenId && r.value.senderEmail == before.senderEmail
        && r.value.tenantId == (if req.tenantId == "" then before.tenantId else req.tenantId)
        && r.value.clientId == (if req.clientId == "" then before.clientId else req.clientId)
        && r.value.isActive == (if req.isActive == None then before.isActive else req.isActive.value)
        && (if req.clientSecret == "" then r.value.encryptedSecret == before.encryptedSecret
            else codec.encrypt(req.clientSecret) == Some(r.value.encryptedSecret))
      ensures r.Err? ==>
        r.error == if !readOk then DatabaseFailed
                   else if id !in old(table).configs then NotFound
                   else if !CanUpdate(old(table), codec, id, req) then EncryptFailed else DatabaseFailed
      ensures r.Ok? ==> id in table.configs && r.value == table.configs[id]
    {
      if !readOk {
        return Err(DatabaseFailed);
      }
      if id !in table.configs {
        return Err(NotFound);
      }
      var config := table.configs[id];
      if req.tenantId != "" {
        config := config.(tenantId := req.tenantId);
      }
      if req.clientId != "" {
        config := config.(clientId := req.clientId);
      }
      if req.clientSecret != "" {
        var encrypted := codec.encrypt(req.clientSecret);
        if encrypted.None? {
          return Err(EncryptFailed);
        }
        config := config.(encryptedSecret := encrypted.value);
      }
      if req.isActive.Some? {
        config := config.(isActive := req.isActive.value);
      }
      if !saveOk {
        return Err(DatabaseFailed);
      }
      table := table.(configs := table.configs[id := config]);
      return Ok(config);
    }

    /** A config in use cannot be deleted; the caller is told "config not found" in that case, and
        after a database error, too. */
    method DeleteConfig(id: Uuid, dbOk: bool) returns (r: Result<(), Error>)
      modifies this
      ensures table == if r.Ok? then Apply(org, codec, old(table), Delete(id)) else old(table)
      ensures r.Ok? <==> dbOk && id in old(table).configs && !Referenced(old(table), id)
      ensures r.Err? ==> r.error == NotFound
    {
      if !dbOk || id !in table.configs || Referenced(table, id) {
        return Err(NotFound);
      }
      table := table.(configs := table.configs - {id});
      return Ok(());
    }

    /** The insertion of a mail row, which the mail handlers make in the same database. */
    method InsertMailRow(mailId: Uuid, configId: Option<Uuid>, dbOk: bool) returns (ok: bool)
      modifies this
      ensures ok <==> dbOk && CanInsert(old(table), mailId, configId)
      ensures table == if ok then Apply(org, codec, old(table), InsertMail(mailId, configId)) else old(table)
    {
      ok := dbOk && mailId !in table.mails && (configId.Some? ==> configId.value in table.configs);
      if ok {
        table := table.(mails := table.mails[mailId := configId]);
      }
    }

    method GetDecryptedConfig(id: Uuid, dbOk: bool) returns (r: Result<(SenderConfig, string), Error>)
      ensures r.Ok? <==> dbOk && id in table.configs && codec.decrypt(table.configs[id].encryptedSecret).Some?
      ensures r.Ok? ==>
        r.value.0 == table.configs[id] && codec.decrypt(table.configs[id].encryptedSecret) == Some(r.value.1)
      ensures r.Err? ==>
        r.error == if !dbOk then DatabaseFailed else if id !in table.configs then NotFound else DecryptFailed
    {
      if !dbOk {
        return Err(DatabaseFailed);
      }
      if id !in table.configs {
        return Err(NotFound);
      }
      var secret := codec.decrypt(table.configs[id].encryptedSecret);
      if secret.None? {
        return Err(DecryptFailed);
      }
      return Ok((table.configs[id], secret.value));
    }
  }

  predicate Matches(t: Table, clientTokenId: Uuid, senderEmail: string, id: Uuid)
  {
    && id in t.configs
    && t.configs[id].clientTokenId == clientTokenId
    && t.configs[id].senderEmail == ToLower(senderEmail)
    && t.configs[id].isActive
  }

  // ---- Invariants over all runs

  predicate EmailsOk(t: Table, org: string)
  {
    forall id :: id in t.configs ==>
      ToLower(t.configs[id].senderEmail) == t.configs[id].senderEmail
      && HasSuffix(t.configs[id].senderEmail, ToLower(org))
  }

  predicate UniquePerClient(t: Table)
  {
    forall a, b :: a in t.configs && b in t.configs && a != b ==>
      t.configs[a].clientTokenId != t.configs[b].clientTokenId || t.configs[a].senderEmail != t.configs[b].senderEmail
  }

  predicate ReferencesResolve(t: Table)
  {
    forall m :: m in t.mails && t.mails[m].Some? ==> t.mails[m].value in t.configs
  }

  ghost predicate SecretsDecrypt(t: Table, codec: Codec)
  {
    forall id :: id in t.configs ==> codec.decrypt(t.configs[id].encryptedSecret).Some?
  }

  lemma ApplyKeepsEmails(org: string, codec: Codec, t: Table, op: Op)
    requires EmailsOk(t, org)
    ensures EmailsOk(Apply(org, codec, t, op), org)
  {
    if op.Create? {
      ToLowerIdempotent(op.create.senderEmail);
    }
  }

  lemma ApplyKeepsUnique(org: string, codec: Codec, t: Table, op: Op)
    requires UniquePerClient(t)
    ensures UniquePerClient(Apply(org, codec, t, op))
  {
  }

  lemma ApplyKeepsReferences(org: string, codec: Codec, t: Table, op: Op)
    requires ReferencesResolve(t)
    ensures ReferencesResolve(Apply(org, codec, t, op))
  {
  }

  lemma ApplyKeepsSecrets(org: string, codec: Codec, t: Table, op: Op)
    requires Sound(codec) && SecretsDecrypt(t, codec)
    ensures SecretsDecrypt(Apply(org, codec, t, op), codec)
  {
  }

  /** After any run of operations: addresses are lower-case, in the org domain and unique per
      client, every mail row's config exists, and every stored secret can be decrypted. */
  lemma {:induction false} TableInvariant(org: string, codec: Codec, ops: seq<Op>)
    requires Sound(codec)
    ensures
      var t := ApplyAll(org, codec, ops);
      EmailsOk(t, org) && UniquePerClient(t) && ReferencesResolve(t) && SecretsDecrypt(t, codec)
  {
    hide Apply;
    if ops != [] {
      var before := ApplyAll(org, codec, ops[..|ops| - 1]);
      var op := ops[|ops| - 1];
      TableInvariant(org, codec, ops[..|ops| - 1]);
      ApplyKeepsEmails(org, codec, before, op);
      ApplyKeepsUnique(org, codec, before, op);
      ApplyKeepsReferences(org, codec, before, op);
      ApplyKeepsSecrets(org, codec, before, op);
    }
  }

  /** In every run a lookup has at most one answer, and does not depend on capitalisation. */
  lemma LookupIsUnique(org: string, codec: Codec, ops: seq<Op>, clientTokenId: Uuid,
                       email: string, variant: string, a: Uuid, b: Uuid)
    requires Sound(codec) && ToLower(email) == ToLower(variant)
    requires Matches(ApplyAll(org, codec, ops), clientTokenId, email, a)
    requires Matches(ApplyAll(org, codec, ops), clientTokenId, variant, b)
    ensures a == b
  {
    TableInvariant(org, codec, ops);
  }

  lemma {:induction false} MailsAreKept(org: string, codec: Codec, ops: seq<Op>, more: seq<Op>, mailId: Uuid)
    requires mailId in ApplyAll(org, codec, ops).mails
    ensures mailId in ApplyAll(org, codec, ops + more).mails
    ensures ApplyAll(org, codec, ops + more).mails[mailId] == ApplyAll(org, codec, ops).mails[mailId]
  {
    if more == [] {
      assert ops + more == ops;
    } else {
      var front := more[..|more| - 1];
      MailsAreKept(org, codec, ops, front, mailId);
      assert (ops + more)[..|ops + more| - 1] == ops + front;
    }
  }

  /** Once a mail with a config has been stored, its config is there for the worker at any later
      time, with a secret that decrypts, whatever is created, updated or deleted meanwhile. */
  lemma ConfigOutlivesMail(org: string, codec: Codec, ops: seq<Op>, more: seq<Op>, mailId: Uuid)
    requires Sound(codec)
    requires mailId in ApplyAll(org, codec, ops).mails && ApplyAll(org, codec, ops).mails[mailId].Some?
    ensures
      var t := ApplyAll(org, codec, ops + more);
      var id := ApplyAll(org, codec, ops).mails[mailId].value;
      id in t.configs && codec.decrypt(t.configs[id].encryptedSecret).Some?
  {
    MailsAreKept(org, codec, ops, more, mailId);
    TableInvariant(org, codec, ops + more);
    hide ApplyAll;
  }

  // ---- What is entered is what is found

  /** A config that has just been created is the one the next lookup finds, whatever the capitalisation
      of the address, with tenant, client and secret as entered. */
  lemma CreatedIsFound(org: string, codec: Codec, ops: seq<Op>, id: Uuid, clientTokenId: Uuid,
                       req: CreateRequest, email: string)
    requires Sound(codec) && CanCreate(ApplyAll(org, codec, ops), org, codec, id, clientTokenId, req)
    requires ToLower(email) == ToLower(req.senderEmail)
    ensures
      var t := ApplyAll(org, codec, ops + [Create(id, clientTokenId, req)]);
      && id in t.configs
      && t.configs[id].tenantId == req.tenantId && t.configs[id].clientId == req.clientId && t.configs[id].isActive
      && t.configs[id].clientTokenId == clientTokenId && t.configs[id].senderEmail == ToLower(req.senderEmail)
      && codec.decrypt(t.configs[id].encryptedSecret) == Some(req.clientSecret)
      && (forall found :: Matches(t, clientTokenId, email, found) <==> found == id)
      && (forall other :: other != clientTokenId ==> !Matches(t, other, email, id))
  {
    var op := Create(id, clientTokenId, req);
    assert (ops + [op])[..|ops|] == ops;
    forall found | Matches(ApplyAll(org, codec, ops + [op]), clientTokenId, email, found)
      ensures found == id
    {
      LookupIsUnique(org, codec, ops + [op], clientTokenId, email, req.senderEmail, found, id);
    }
  }

  /** A config that has been switched off is found by no lookup, and found again once switched on. */
  lemma SwitchedOffIsNotFound(org: string, codec: Codec, t: Table, id: Uuid, req: UpdateRequest, email: string)
    requires CanUpdate(t, codec, id, req) && req.isActive.Some? && ToLower(email) == t.configs[id].senderEmail
    ensures
      var u := Apply(org, codec, t, Update(id, req));
      && (!req.isActive.value ==> forall client, any :: !Matches(u, client, any, id))
      && (req.isActive.value ==> Matches(u, t.configs[id].clientTokenId, email, id))
  {
  }

  /** When a creation is possible, spelled out: other clients may use the same address. */
  lemma CreationIs(t: Table, org: string, codec: Codec, id: Uuid, clientTokenId: Uuid, req: CreateRequest)
    ensures CanCreate(t, org, codec, id, clientTokenId, req) <==>
      && (exists p, d :: Concat(req.senderEmail, p, d) && ToLower(d) == ToLower(org))
      && codec.encrypt(req.clientSecret) != None
      && id !in t.configs
      && (forall other :: other in t.configs && t.configs[other].clientTokenId == clientTokenId ==>
            t.configs[other].senderEmail != ToLower(req.senderEmail))
  {
    InDomainIs(req.senderEmail, org);
  }

  /** An update changes the fields the request gives, and no other. */
  lemma UpdatedFields(org: string, codec: Codec, t: Table, id: Uuid, req: UpdateRequest)
    requires CanUpdate(t, codec, id, req)
    ensures
      var c, d := t.configs[id], Apply(org, codec, t, Update(id, req)).configs[id];
      && d.clientTokenId == c.clientTokenId && d.senderEmail == c.senderEmail
      && d.tenantId == (if req.tenantId == "" then c.tenantId else req.tenantId)
      && d.clientId == (if req.clientId == "" then c.clientId else req.clientId)
      && d.isActive == (if req.isActive == None then c.isActive else req.isActive.value)
      && (if req.clientSecret == "" then d.encryptedSecret == c.encryptedSecret
          else codec.encrypt(req.clientSecret) == Some(d.encryptedSecret))
  {
  }

  // ---- Secrets come back as they were entered

  /** The operation stores this secret for the config. */
  predicate Enters(org: string, codec: Codec, t: Table, op: Op, id: Uuid, secret: string)
  {
    match op
    case Create(x, clientTokenId, req) =>
      x == id && req.clientSecret == secret && CanCreate(t, org, codec, id, clientTokenId, req)
    case Update(x, req) =>
      x == id && req.clientSecret == secret && secret != "" && CanUpdate(t, codec, id, req)
    case _ => false
  }

  /** No operation deletes the config or asks for another secret. */
  predicate Undisturbed(ops: seq<Op>, id: Uuid)
  {
    forall op :: op in ops ==>
      !(op.Delete? && op.id == id) && !(op.Update? && op.id == id && op.update.clientSecret != "")
  }

  /** The secret that was last entered for a config is the one the worker gets, whatever happens to
      the rest of the table, and whatever else of the config is updated. */
  lemma {:induction false} LastSecretReturned(org: string, codec: Codec, ops: seq<Op>, op: Op, more: seq<Op>,
                                              id: Uuid, secret: string)
    requires Sound(codec) && Enters(org, codec, ApplyAll(org, codec, ops), op, id, secret) && Undisturbed(more, id)
    ensures
      var t := ApplyAll(org, codec, ops + [op] + more);
      id in t.configs && codec.decrypt(t.configs[id].encryptedSecret) == Some(secret)
  {
    var all := ops + [op] + more;
    if more == [] {
      assert all == ops + [op] && all[..|all| - 1] == ops;
    } else {
      var front := more[..|more| - 1];
      LastSecretReturned(org, codec, ops, op, front, id, secret);
      assert all[..|all| - 1] == ops + [op] + front;
      assert all[|all| - 1] in more;
    }
  }
}
