/**
 * The API-key registry: the APIKey rows of accounts/models.py, the pre-save
 * hook of api/signals.py that fills in an empty key, key generation from the
 * profile page (accounts/views.py) and from the API (api/views.py), revocation,
 * and the listing of a user's active keys.
 */
module ApiKeys {
  import opened Wrappers
  import opened BillingModels

  datatype APIKey = APIKey(id: nat, user: UserId, key: string, name: string, isActive: bool, lastUsed: Option<int>)

  const KeyMaxLength: nat := 64
  const NameMaxLength: nat := 50

  predicate IsLowerHex(c: char) {
    '0' <= c <= '9' || 'a' <= c <= 'f'
  }

  /** The 36-character text of a version-4 UUID as str(uuid4()) writes it (section 3 of RFC 4122). */
  predicate IsUuidText(s: string) {
    && |s| == 36
    && (forall k :: 0 <= k < 36 ==> (s[k] == '-' <==> k in {8, 13, 18, 23}))
    && (forall k :: 0 <= k < 36 && !(k in {8, 13, 18, 23}) ==> IsLowerHex(s[k]))
    && s[14] == '4'
    && s[19] in {'8', '9', 'a', 'b'}
  }

  /** The generated text fits the key column. */
  lemma UuidFitsKeyColumn(uuid: string)
    requires IsUuidText(uuid)
    ensures uuid != [] && |uuid| <= KeyMaxLength
  {
  }

  /** The pre-save hook's result: an empty key becomes `uuid`, any other key is kept. */
  function FilledKey(key: string, uuid: string): string {
    if key == [] then uuid else key
  }

  /** After the hook the key is non-empty, a non-empty key is untouched, and a second application changes nothing. */
  lemma FilledKeyProperties(key: string, uuid: string, another: string)
    requires IsUuidText(uuid)
    ensures FilledKey(key, uuid) != []
    ensures key != [] ==> FilledKey(key, uuid) == key
    ensures key == [] ==> FilledKey(key, uuid) == uuid
    ensures FilledKey(FilledKey(key, uuid), another) == FilledKey(key, uuid)
  {
  }

  /** An APIKey instance about to be saved. */
  class KeyInstance {
    var key: string

    constructor (key: string)
      ensures this.key == key
    {
      this.key := key;
    }

    /** The pre_save receiver: fill in an empty key with a fresh UUID text. */
    method GenerateKeyHook(uuid: string)
      modifies this
      ensures key == FilledKey(old(key), uuid)
    {
      if key == [] {
        key := uuid;
      }
    }
  }

  /** The key rows by id, and the id the next row gets. */
  datatype KeyTable = KeyTable(keys: map<nat, APIKey>, nextId: nat)

  /** Keys are row ids below the next id, every stored key text has been filled by the hook, and key texts are unique, as the unique column makes them. */
  ghost predicate ValidKeys(t: KeyTable) {
    && (forall k :: k in t.keys ==> t.keys[k].id == k && k < t.nextId && t.keys[k].key != [])
    && (forall j, k :: j in t.keys && k in t.keys && j != k ==> t.keys[j].key != t.keys[k].key)
  }

  /** Whether some row already has this key text. */
  predicate KeyTaken(t: KeyTable, key: string) {
    exists k :: k in t.keys && t.keys[k].key == key
  }

  /** What inserting a key answers: the new row, or the database's refusal (a duplicate key or an over-long field). */
  datatype InsertOutcome = KeyInserted(row: APIKey) | KeyRejected

  /** APIKey.objects.create: the hook fills the key, then the row is stored active unless a column constraint refuses it. */
  function InsertKey(t: KeyTable, user: UserId, key: string, name: string, uuid: string): (InsertOutcome, KeyTable) {
    var filled := FilledKey(key, uuid);
    if KeyTaken(t, filled) || |filled| > KeyMaxLength || |name| > NameMaxLength then (KeyRejected, t)
    else
      var row := APIKey(t.nextId, user, filled, name, true, None);
      (KeyInserted(row), KeyTable(t.keys[t.nextId := row], t.nextId + 1))
  }

  /** An insert adds exactly one active row owned by the user, with the given name and the filled key, or nothing; the table stays valid. */
  lemma InsertKeyEffect(t: KeyTable, user: UserId, key: string, name: string, uuid: string)
    requires ValidKeys(t) && uuid != []
    ensures var (outcome, t') := InsertKey(t, user, key, name, uuid);
      && ValidKeys(t')
      && (outcome.KeyRejected? ==> t' == t)
      && (outcome.KeyInserted? ==>
            && t'.keys == t.keys[t.nextId := outcome.row] && t.nextId !in t.keys
            && outcome.row.user == user && outcome.row.name == name && outcome.row.isActive
            && outcome.row.key == FilledKey(key, uuid) && |outcome.row.key| <= KeyMaxLength)
      && (outcome.KeyInserted? <==>
            !KeyTaken(t, FilledKey(key, uuid)) && |FilledKey(key, uuid)| <= KeyMaxLength && |name| <= NameMaxLength)
  {
    var filled := FilledKey(key, uuid);
    if !(KeyTaken(t, filled) || |filled| > KeyMaxLength || |name| > NameMaxLength) {
      assert t.nextId !in t.keys;
    }
  }

  /** The requester's active keys: APIKey.objects.filter(user=request.user, is_active=True). */
  function ActiveKeys(t: KeyTable, requester: UserId): (r: map<nat, APIKey>)
    ensures forall k :: k in r <==> k in t.keys && t.keys[k].user == requester && t.keys[k].isActive
    ensures forall k :: k in r ==> r[k] == t.keys[k]
  {
    map k | k in t.keys && t.keys[k].user == requester && t.keys[k].isActive :: t.keys[k]
  }

  /** What generate_api_key on the profile page does on a POST: one insert, then a redirect; a refused insert raises out of the view before the redirect (a 500). */
  datatype ProfileKeyOutcome = KeyGenerated(row: APIKey) | KeyGenerationFailed | NotPosted

  /** accounts' generate_api_key: the key is a fresh UUID text and the name the form's, defaulting to 'Default Key'. */
  function GenerateFromProfileResult(t: KeyTable, requester: UserId, isPost: bool, nameField: Option<string>, uuid: string)
    : (ProfileKeyOutcome, KeyTable)
  {
    if !isPost then (NotPosted, t)
    else
      var name := if nameField.Some? then nameField.value else "Default Key";
      var (inserted, t') := InsertKey(t, requester, uuid, name, uuid);
      (if inserted.KeyInserted? then KeyGenerated(inserted.row) else KeyGenerationFailed, t')
  }

  /** A POST adds one active key for the requester, named from the form or 'Default Key', holding the UUID text; anything else adds nothing. */
  lemma GenerateFromProfileEffect(t: KeyTable, requester: UserId, isPost: bool, nameField: Option<string>, uuid: string)
    requires ValidKeys(t) && IsUuidText(uuid)
    ensures var (outcome, t') := GenerateFromProfileResult(t, requester, isPost, nameField, uuid);
      && ValidKeys(t')
      && (!isPost ==> outcome == NotPosted && t' == t)
      && (outcome.KeyGenerated? ==>
            && isPost && t'.keys == t.keys[t.nextId := outcome.row]
            && outcome.row.user == requester && outcome.row.isActive && outcome.row.key == uuid
            && outcome.row.name == (if nameField.Some? then nameField.value else "Default Key"))
      && (outcome.KeyGenerationFailed? ==> t' == t)
  {
    var name := if nameField.Some? then nameField.value else "Default Key";
    InsertKeyEffect(t, requester, uuid, name, uuid);
  }

  /** What the API's generate_api_key and revoke_api_key answer. */
  datatype ApiKeyReply = Created201(row: APIKey) | Ok200(row: APIKey) | NotFound404 | MethodNotAllowed405 | ServerError500

  /** The API's generate_api_key: no key is passed, so the hook fills one in. */
  function GenerateFromApiResult(t: KeyTable, requester: UserId, isPost: bool, nameField: Option<string>, uuid: string)
    : (ApiKeyReply, KeyTable)
  {
    if !isPost then (MethodNotAllowed405, t)
    else
      var name := if nameField.Some? then nameField.value else "Default Key";
      var (inserted, t') := InsertKey(t, requester, "", name, uuid);
      (if inserted.KeyInserted? then Created201(inserted.row) else ServerError500, t')
  }

  /** The API adds one active key owned by the requester, named from the request or 'Default Key', and the new key is in the requester's listing. */
  lemma GenerateFromApiEffect(t: KeyTable, requester: UserId, nameField: Option<string>, uuid: string)
    requires ValidKeys(t) && IsUuidText(uuid)
    ensures var (reply, t') := GenerateFromApiResult(t, requester, true, nameField, uuid);
      && ValidKeys(t')
      && (reply.Created201? ==>
            && t'.keys == t.keys[t.nextId := reply.row]
            && reply.row.user == requester && reply.row.isActive && reply.row.key == uuid
            && reply.row.name == (if nameField.Some? then nameField.value else "Default Key")
            && reply.row.id in ActiveKeys(t', requester))
      && (reply.ServerError500? ==> t' == t)
      && (reply.Created201? || reply.ServerError500?)
  {
    var name := if nameField.Some? then nameField.value else "Default Key";
    InsertKeyEffect(t, requester, "", name, uuid);
  }

  /** revoke_api_key: the requester's key with that id is deactivated and returned; any other id is 404. */
  function RevokeResult(t: KeyTable, requester: UserId, isPost: bool, keyId: nat): (ApiKeyReply, KeyTable) {
    if !isPost then (MethodNotAllowed405, t)
    else if keyId !in t.keys || t.keys[keyId].user != requester then (NotFound404, t)
    else
      var row := t.keys[keyId].(isActive := false);
      (Ok200(row), t.(keys := t.keys[keyId := row]))
  }

  /** Revoking someone else's key, or a missing one, is 404 and changes nothing. */
  lemma RevokeNotOwned(t: KeyTable, requester: UserId, keyId: nat)
    requires keyId !in t.keys || t.keys[keyId].user != requester
    ensures RevokeResult(t, requester, true, keyId) == (NotFound404, t)
  {
  }

  /** Revoking sets only that key's is_active to false, reports it inactive, and keeps every other key; the pre-save hook that the save runs leaves the stored key as it is. */
  lemma RevokeEffect(t: KeyTable, requester: UserId, keyId: nat)
    requires ValidKeys(t) && keyId in t.keys && t.keys[keyId].user == requester
    ensures var (reply, t') := RevokeResult(t, requester, true, keyId);
      && reply.Ok200? && !reply.row.isActive && reply.row.id == keyId
      && reply.row == t.keys[keyId].(isActive := false)
      && t'.keys.Keys == t.keys.Keys && t'.nextId == t.nextId
      && (forall k :: k in t.keys && k != keyId ==> t'.keys[k] == t.keys[k])
      && ValidKeys(t')
      && (forall uuid :: FilledKey(t'.keys[keyId].key, uuid) == t'.keys[keyId].key)
  {
  }

  /** A revoked key leaves the requester's listing, and the rest of the listing stays. */
  lemma RevokeLeavesListing(t: KeyTable, requester: UserId, keyId: nat)
    requires keyId in t.keys && t.keys[keyId].user == requester
    ensures var t' := RevokeResult(t, requester, true, keyId).1;
      && keyId !in ActiveKeys(t', requester)
      && ActiveKeys(t', requester) == ActiveKeys(t, requester) - {keyId}
  {
    var t' := RevokeResult(t, requester, true, keyId).1;
    assert ActiveKeys(t', requester) == ActiveKeys(t, requester) - {keyId};
  }

  /** Revoking twice is revoking once. */
  lemma RevokeIdempotent(t: KeyTable, requester: UserId, keyId: nat)
    ensures var t' := RevokeResult(t, requester, true, keyId).1;
      RevokeResult(t', requester, true, keyId).1 == t'
  {
    var t' := RevokeResult(t, requester, true, keyId).1;
    if keyId in t.keys && t.keys[keyId].user == requester {
      assert t'.keys[keyId := t'.keys[keyId].(isActive := false)] == t'.keys;
    }
  }

  /** The registry of keys as the views change it. */
  class KeyRegistry {
    var keys: map<nat, APIKey>
    var nextId: nat

    function Snapshot(): KeyTable
      reads this
    {
      KeyTable(keys, nextId)
    }

    ghost predicate Valid()
      reads this
    {
      ValidKeys(Snapshot())
    }

    constructor ()
      ensures Valid() && keys == map[] && nextId == 1
    {
      keys := map[];
      nextId := 1;
    }

    /** The key list of APIKeyViewSet. */
    function ListActive(requester: UserId): (r: map<nat, APIKey>)
      reads this
      ensures forall k :: k in r <==> k in keys && keys[k].user == requester && keys[k].isActive
      ensures forall k :: k in r ==> r[k] == keys[k]
    {
      ActiveKeys(Snapshot(), requester)
    }

    method Insert(user: UserId, key: string, name: string, uuid: string) returns (outcome: InsertOutcome)
      requires Valid() && uuid != []
      modifies this
      ensures Valid()
      ensures (outcome, Snapshot()) == InsertKey(old(Snapshot()), user, key, name, uuid)
    {
      InsertKeyEffect(Snapshot(), user, key, name, uuid);
      var instance := new KeyInstance(key);
      instance.GenerateKeyHook(uuid);
      var filled := instance.key;
      if KeyTaken(Snapshot(), filled) || |filled| > KeyMaxLength || |name| > NameMaxLength {
        return KeyRejected;
      }
      var row := APIKey(nextId, user, filled, name, true, None);
      keys := keys[nextId := row];
      nextId := nextId + 1;
      outcome := KeyInserted(row);
    }

    method GenerateFromProfile(requester: UserId, isPost: bool, nameField: Option<string>, uuid: string)
      returns (outcome: ProfileKeyOutcome)
      requires Valid() && uuid != []
      modifies this
      ensures Valid()
      ensures (outcome, Snapshot()) == GenerateFromProfileResult(old(Snapshot()), requester, isPost, nameField, uuid)
    {
      if !isPost {
        return NotPosted;
      }
      var name := if nameField.Some? then nameField.value else "Default Key";
      var inserted := Insert(requester, uuid, name, uuid);
      outcome := if inserted.KeyInserted? then KeyGenerated(inserted.row) else KeyGenerationFailed;
    }

    method GenerateFromApi(requester: UserId, isPost: bool, nameField: Option<string>, uuid: string)
      returns (reply: ApiKeyReply)
      requires Valid() && uuid != []
      modifies this
      ensures Valid()
      ensures (reply, Snapshot()) == GenerateFromApiResult(old(Snapshot()), requester, isPost, nameField, uuid)
    {
      if !isPost {
        return MethodNotAllowed405;
      }
      var name := if nameField.Some? then nameField.value else "Default Key";
      var inserted := Insert(requester, "", name, uuid);
      reply := if inserted.KeyInserted? then Created201(inserted.row) else ServerError500;
    }

    method Revoke(requester: UserId, isPost: bool, keyId: nat) returns (reply: ApiKeyReply)
      requires Valid()
      modifies this
      ensures Valid()
      ensures (reply, Snapshot()) == RevokeResult(old(Snapshot()), requester, isPost, keyId)
    {
      if !isPost {
        return MethodNotAllowed405;
      }
      if keyId !in keys || keys[keyId].user != requester {
        return NotFound404;
      }
      var row := keys[keyId].(isActive := false);
      keys := keys[keyId := row];
      reply := Ok200(row);
    }
  }
}
