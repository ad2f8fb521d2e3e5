/** The network utilities that turn a card or a bank account into the
    parameter map sent to the payments API: the null pruning of a map, the two
    parameter builders, and the device fingerprint (`guid`, `muid`) added to
    card parameters. */
module StripeNetworkUtils {
  import opened JavaText

  /** What a parameter map holds under a key: Java's `null`, a string, an
      `Integer`, the list of logging tokens, or a nested parameter map. */
  datatype Value =
    | Null
    | Str(text: string)
    | Int(number: int)
    | Tokens(items: seq<string>)
    | Nested(entries: map<string, Value>)

  const GUID := "guid"
  const MUID := "muid"
  /** `Token.TYPE_CARD` and `Token.TYPE_BANK_ACCOUNT`. */
  const TYPE_CARD := "card"
  const TYPE_BANK_ACCOUNT := "bank_account"
  /** `LoggingUtils.FIELD_PRODUCT_USAGE`. */
  const FIELD_PRODUCT_USAGE := "product_usage"

  /** The four top-level keys are distinct. */
  lemma TopLevelKeysDistinct()
    ensures GUID != MUID
    ensures FIELD_PRODUCT_USAGE !in {TYPE_CARD, GUID, MUID}
    ensures TYPE_CARD !in {GUID, MUID}
  {
    assert GUID[0] != MUID[0];
    assert FIELD_PRODUCT_USAGE[0] !in {TYPE_CARD[0], GUID[0], MUID[0]};
    assert TYPE_CARD[0] !in {GUID[0], MUID[0]};
  }

  /** A nullable Java value as a map value. */
  function StrOrNull(s: Option<string>): Value {
    if s.Some? then Str(s.value) else Null
  }

  function IntOrNull(n: Option<int>): Value {
    if n.Some? then Int(n.value) else Null
  }

  function TokensOrNull(ts: Option<seq<string>>): Value {
    if ts.Some? then Tokens(ts.value) else Null
  }

  /** The card record as its getters return it; every field may be null. */
  datatype Card = Card(
    number: Option<string>,
    cvc: Option<string>,
    expMonth: Option<int>,
    expYear: Option<int>,
    name: Option<string>,
    currency: Option<string>,
    addressLine1: Option<string>,
    addressLine2: Option<string>,
    addressCity: Option<string>,
    addressZip: Option<string>,
    addressState: Option<string>,
    addressCountry: Option<string>,
    loggingTokens: Option<seq<string>>)

  /** The bank account record as its getters return it. */
  datatype BankAccount = BankAccount(
    countryCode: Option<string>,
    currency: Option<string>,
    accountNumber: Option<string>,
    routingNumber: Option<string>,
    accountHolderName: Option<string>,
    accountHolderType: Option<string>)

  /** `UidProvider`: what `getUid()` and `getPackageName()` return. */
  datatype UidProvider = UidProvider(uid: Option<string>, packageName: Option<string>)

  /** `StripeTextUtils.shaHashInput`: a deterministic digest of a text, which
      may be null. */
  type Hasher = string -> Option<string>

  /** A `Map<String, Object>` that the utilities fill and edit in place. */
  class ParamMap {
    var entries: map<string, Value>

    constructor ()
      ensures entries == map[]
    {
      entries := map[];
    }

    /** `Map.get`: null for a missing key as for a key mapped to null. */
    function Get(key: string): Value
      reads this
    {
      if key in entries then entries[key] else Null
    }

    /** `Map.put`; a null value is stored as well. */
    method Put(key: string, value: Value)
      modifies this
      ensures entries == old(entries)[key := value]
    {
      entries := entries[key := value];
    }

    /** `Map.remove`. */
    method Remove(key: string)
      modifies this
      ensures entries == old(entries) - {key}
    {
      entries := entries - {key};
    }
  }

  // ---------------------------------------------------------------------
  // Null pruning

  /** The map without its null entries: nothing maps to null, every non-null
      entry is kept as it was, and a key is kept exactly when its value is not
      null. */
  function Pruned(m: map<string, Value>): (r: map<string, Value>)
    ensures forall k :: k in r ==> r[k] != Null
    ensures forall k :: k in m && m[k] != Null ==> k in r && r[k] == m[k]
    ensures forall k :: k in r <==> k in m && m[k] != Null
  {
    map k | k in m && m[k] != Null :: m[k]
  }

  /** Pruning an already pruned map changes nothing. */
  lemma PrunedIdempotent(m: map<string, Value>)
    ensures Pruned(Pruned(m)) == Pruned(m)
  {
  }

  /** A map without null values is its own pruning. */
  lemma PrunedNoNullIsIdentity(m: map<string, Value>)
    requires forall k :: k in m ==> m[k] != Null
    ensures Pruned(m) == m
  {
  }

  /** `removeNullParams`: walks a snapshot of the key set, in whatever order
      the set yields it, and removes each key whose value is null. */
  method RemoveNullParams(mapToEdit: ParamMap)
    modifies mapToEdit
    ensures mapToEdit.entries == Pruned(old(mapToEdit.entries))
  {
    ghost var original := mapToEdit.entries;
    var keys := mapToEdit.entries.Keys;
    while keys != {}
      invariant keys <= original.Keys
      invariant forall k :: k in mapToEdit.entries <==> k in original && (k in keys || original[k] != Null)
      invariant forall k :: k in mapToEdit.entries ==> mapToEdit.entries[k] == original[k]
      decreases keys
    {
      var key :| key in keys;
      if mapToEdit.Get(key) == Null {
        mapToEdit.Remove(key);
      }
      keys := keys - {key};
    }
  }

  // ---------------------------------------------------------------------
  // Device fingerprint

  /** What `addUidParams` leaves in `params`: nothing changes when the uid is
      blank; otherwise `guid` is set to the digest of the uid and `muid` to
      the digest of the package name followed by the uid, each only when its
      digest is not blank. */
  function WithUid(params: map<string, Value>, provider: UidProvider, hash: Hasher): map<string, Value> {
    var guid := provider.uid;
    if IsBlank(guid) then params
    else
      var hashGuid := hash(guid.value);
      var hashMuid := hash(Concat(provider.packageName, guid.value));
      var withGuid := if IsBlank(hashGuid) then params else params[GUID := Str(hashGuid.value)];
      if IsBlank(hashMuid) then withGuid else withGuid[MUID := Str(hashMuid.value)]
  }

  /** `addUidParams` on the provider path. */
  method AddUidParams(provider: UidProvider, hash: Hasher, params: ParamMap)
    modifies params
    ensures params.entries == WithUid(old(params.entries), provider, hash)
  {
    var guid := provider.uid;
    if IsBlank(guid) {
      return;
    }
    var hashGuid := hash(guid.value);
    var muid := Concat(provider.packageName, guid.value);
    var hashMuid := hash(muid);
    if !IsBlank(hashGuid) {
      params.Put(GUID, Str(hashGuid.value));
    }
    if !IsBlank(hashMuid) {
      params.Put(MUID, Str(hashMuid.value));
    }
  }

  /** A blank (or null) uid leaves the parameters exactly as they were. */
  lemma BlankUidLeavesParams(params: map<string, Value>, provider: UidProvider, hash: Hasher)
    requires IsBlank(provider.uid)
    ensures WithUid(params, provider, hash) == params
  {
  }

  /** With a non-blank uid, `guid` holds the digest of the uid when that
      digest is not blank; otherwise `guid` keeps whatever entry it had. */
  lemma UidSetsGuid(params: map<string, Value>, provider: UidProvider, hash: Hasher)
    requires !IsBlank(provider.uid)
    ensures var r := WithUid(params, provider, hash);
      var hashGuid := hash(provider.uid.value);
      && (!IsBlank(hashGuid) ==> GUID in r && r[GUID] == Str(hashGuid.value))
      && (IsBlank(hashGuid) ==> (GUID in r <==> GUID in params) && (GUID in r ==> r[GUID] == params[GUID]))
  {
    TopLevelKeysDistinct();
  }

  /** With a non-blank uid, `muid` holds the digest of the package name
      followed by the uid when that digest is not blank; otherwise `muid`
      keeps whatever entry it had. */
  lemma UidSetsMuid(params: map<string, Value>, provider: UidProvider, hash: Hasher)
    requires !IsBlank(provider.uid)
    ensures var r := WithUid(params, provider, hash);
      var hashMuid := hash(Concat(provider.packageName, provider.uid.value));
      && (!IsBlank(hashMuid) ==> MUID in r && r[MUID] == Str(hashMuid.value))
      && (IsBlank(hashMuid) ==> (MUID in r <==> MUID in params) && (MUID in r ==> r[MUID] == params[MUID]))
  {
  }

  /** Every key other than `guid` and `muid` keeps its entry. */
  lemma UidKeepsOtherKeys(params: map<string, Value>, provider: UidProvider, hash: Hasher)
    ensures var r := WithUid(params, provider, hash);
      && (forall k :: k != GUID && k != MUID ==> (k in r <==> k in params))
      && (forall k :: k in r && k != GUID && k != MUID ==> r[k] == params[k])
  {
    if IsBlank(provider.uid) {
      BlankUidLeavesParams(params, provider, hash);
    }
  }

  /** The only keys the fingerprint can add are `guid` and `muid`, and the
      only values it writes are values of `hash` on the uid and on the package
      name followed by the uid. */
  lemma UidWritesOnlyDigests(params: map<string, Value>, provider: UidProvider, hash: Hasher)
    ensures var r := WithUid(params, provider, hash);
      && params.Keys <= r.Keys <= params.Keys + {GUID, MUID}
      && forall k :: k in r ==>
           || (k in params && r[k] == params[k])
           || (k == GUID && Some(r[k].text) == hash(provider.uid.value))
           || (k == MUID && Some(r[k].text) == hash(Concat(provider.packageName, provider.uid.value)))
  {
  }

  /** The digests written depend only on the uid and the package name, not on
      what else the parameters hold: two calls with the same provider write
      the same `guid` and `muid`. */
  lemma FingerprintDeterministic(params1: map<string, Value>, params2: map<string, Value>, provider: UidProvider, hash: Hasher)
    requires GUID !in params1 && GUID !in params2 && MUID !in params1 && MUID !in params2
    ensures var r1, r2 := WithUid(params1, provider, hash), WithUid(params2, provider, hash);
      && (GUID in r1 <==> GUID in r2) && (GUID in r1 ==> r1[GUID] == r2[GUID])
      && (MUID in r1 <==> MUID in r2) && (MUID in r1 ==> r1[MUID] == r2[MUID])
  {
  }

  // ---------------------------------------------------------------------
  // Card parameters

  /** The card sub-map as filled by the twelve `put`s, before pruning. */
  function CardFields(card: Card): map<string, Value> {
    map[
      "number" := StrOrNull(NullIfBlank(card.number)),
      "cvc" := StrOrNull(NullIfBlank(card.cvc)),
      "exp_month" := IntOrNull(card.expMonth),
      "exp_year" := IntOrNull(card.expYear),
      "name" := StrOrNull(NullIfBlank(card.name)),
      "currency" := StrOrNull(NullIfBlank(card.currency)),
      "address_line1" := StrOrNull(NullIfBlank(card.addressLine1)),
      "address_line2" := StrOrNull(NullIfBlank(card.addressLine2)),
      "address_city" := StrOrNull(NullIfBlank(card.addressCity)),
      "address_zip" := StrOrNull(NullIfBlank(card.addressZip)),
      "address_state" := StrOrNull(NullIfBlank(card.addressState)),
      "address_country" := StrOrNull(NullIfBlank(card.addressCountry))
    ]
  }

  /** The pruned card sub-map nested under `card`. */
  function CardParams(card: Card): map<string, Value> {
    Pruned(CardFields(card))
  }

  /** The whole result of `hashMapFromCard` for a given provider and digest. */
  function CardTokenParams(provider: UidProvider, hash: Hasher, card: Card): map<string, Value> {
    WithUid(map[FIELD_PRODUCT_USAGE := TokensOrNull(card.loggingTokens), TYPE_CARD := Nested(CardParams(card))], provider, hash)
  }

  /** The optional text fields of a card, by the key they are sent under. */
  const CardTextKeys: set<string> := {
    "number", "cvc", "name", "currency", "address_line1", "address_line2",
    "address_city", "address_zip", "address_state", "address_country"
  }

  /** The card's text field sent under `key`. */
  function CardText(card: Card, key: string): Option<string>
    requires key in CardTextKeys
  {
    match key
    case "number" => card.number
    case "cvc" => card.cvc
    case "name" => card.name
    case "currency" => card.currency
    case "address_line1" => card.addressLine1
    case "address_line2" => card.addressLine2
    case "address_city" => card.addressCity
    case "address_zip" => card.addressZip
    case "address_state" => card.addressState
    case _ => card.addressCountry
  }

  /** `hashMapFromCard` with a provider: builds and prunes the card sub-map,
      nests it next to the logging tokens and adds the fingerprint. */
  method HashMapFromCard(provider: UidProvider, hash: Hasher, card: Card) returns (tokenParams: ParamMap)
    ensures fresh(tokenParams)
    ensures tokenParams.entries == CardTokenParams(provider, hash, card)
  {
    tokenParams := new ParamMap();

    var cardParams := new ParamMap();
    cardParams.Put("number", StrOrNull(NullIfBlank(card.number)));
    cardParams.Put("cvc", StrOrNull(NullIfBlank(card.cvc)));
    cardParams.Put("exp_month", IntOrNull(card.expMonth));
    cardParams.Put("exp_year", IntOrNull(card.expYear));
    cardParams.Put("name", StrOrNull(NullIfBlank(card.name)));
    cardParams.Put("currency", StrOrNull(NullIfBlank(card.currency)));
    cardParams.Put("address_line1", StrOrNull(NullIfBlank(card.addressLine1)));
    cardParams.Put("address_line2", StrOrNull(NullIfBlank(card.addressLine2)));
    cardParams.Put("address_city", StrOrNull(NullIfBlank(card.addressCity)));
    cardParams.Put("address_zip", StrOrNull(NullIfBlank(card.addressZip)));
    cardParams.Put("address_state", StrOrNull(NullIfBlank(card.addressState)));
    cardParams.Put("address_country", StrOrNull(NullIfBlank(card.addressCountry)));
    assert cardParams.entries == CardFields(card);

    RemoveNullParams(cardParams);

    tokenParams.Put(FIELD_PRODUCT_USAGE, TokensOrNull(card.loggingTokens));
    tokenParams.Put(TYPE_CARD, Nested(cardParams.entries));

    AddUidParams(provider, hash, tokenParams);
  }

  /** Each optional text field is in the card sub-map exactly when it is not
      blank, and then it is sent unchanged (not trimmed). */
  lemma CardTextFieldPresentIffNotBlank(card: Card, key: string)
    requires key in CardTextKeys
    ensures var p := CardParams(card);
      && (key in p <==> !IsBlank(CardText(card, key)))
      && (key in p ==> p[key] == Str(CardText(card, key).value))
  {
    // Solver hints: the map-literal lookups, kept so the proof stays well under the resource limit.
    var f := CardFields(card);
    match key
    case "number" => assert f["number"] == StrOrNull(NullIfBlank(card.number));
    case "cvc" => assert f["cvc"] == StrOrNull(NullIfBlank(card.cvc));
    case "name" => assert f["name"] == StrOrNull(NullIfBlank(card.name));
    case "currency" => assert f["currency"] == StrOrNull(NullIfBlank(card.currency));
    case "address_line1" => assert f["address_line1"] == StrOrNull(NullIfBlank(card.addressLine1));
    case "address_line2" => assert f["address_line2"] == StrOrNull(NullIfBlank(card.addressLine2));
    case "address_city" => assert f["address_city"] == StrOrNull(NullIfBlank(card.addressCity));
    case "address_zip" => assert f["address_zip"] == StrOrNull(NullIfBlank(card.addressZip));
    case "address_state" => assert f["address_state"] == StrOrNull(NullIfBlank(card.addressState));
    case "address_country" => assert f["address_country"] == StrOrNull(NullIfBlank(card.addressCountry));
  }

  /** The expiry month and year are not subject to the blank rule: whenever
      the card has them, the sub-map holds them unchanged. */
  lemma CardExpiryKept(card: Card)
    ensures var p := CardParams(card);
      && ("exp_month" in p <==> card.expMonth.Some?)
      && ("exp_month" in p ==> p["exp_month"] == Int(card.expMonth.value))
      && ("exp_year" in p <==> card.expYear.Some?)
      && ("exp_year" in p ==> p["exp_year"] == Int(card.expYear.value))
  {
    // Solver hints: the map-literal lookups, kept so the proof stays well under the resource limit.
    var f := CardFields(card);
    assert f["exp_month"] == IntOrNull(card.expMonth);
    assert f["exp_year"] == IntOrNull(card.expYear);
  }

  /** The card sub-map sends nothing but the ten text fields and the expiry. */
  lemma CardParamsKeys(card: Card)
    ensures CardParams(card).Keys <= CardTextKeys + {"exp_month", "exp_year"}
  {
  }

  /** The card result always holds the logging tokens (even a null list: the
      top level is never pruned) and the card sub-map; the only other keys it
      can have are `guid` and `muid`, each present exactly when the uid and its
      digest are not blank. */
  lemma CardTopLevel(provider: UidProvider, hash: Hasher, card: Card)
    ensures var r := CardTokenParams(provider, hash, card);
      && FIELD_PRODUCT_USAGE in r && r[FIELD_PRODUCT_USAGE] == TokensOrNull(card.loggingTokens)
      && TYPE_CARD in r && r[TYPE_CARD] == Nested(CardParams(card))
      && r.Keys <= {FIELD_PRODUCT_USAGE, TYPE_CARD, GUID, MUID}
      && (GUID in r <==> !IsBlank(provider.uid) && !IsBlank(hash(provider.uid.value)))
      && (MUID in r <==> !IsBlank(provider.uid) && !IsBlank(hash(Concat(provider.packageName, provider.uid.value))))
  {
    TopLevelKeysDistinct();
    var base := map[FIELD_PRODUCT_USAGE := TokensOrNull(card.loggingTokens), TYPE_CARD := Nested(CardParams(card))];
    assert GUID !in base;
    UidKeepsOtherKeys(base, provider, hash);
    UidWritesOnlyDigests(base, provider, hash);
    if IsBlank(provider.uid) {
      BlankUidLeavesParams(base, provider, hash);
    } else {
      UidSetsGuid(base, provider, hash);
      UidSetsMuid(base, provider, hash);
    }
  }

  /** An example card: a number, a cvc, an expiry, no name,
      a blank first address line and a whitespace second one. */
  const ExampleCard := Card(Some("4242424242424242"), Some("123"), Some(12), Some(2024),
                            None, None, Some(""), Some("  "), None, None, None, None, Some([]))

  const ExampleProvider := UidProvider(Some("abc123"), Some("com.example.app"))

  /** In this example the number and cvc are sent unchanged, the
      missing name and the blank address lines are not sent, and the expiry is
      sent as integers. */
  lemma ExampleCardParams()
    ensures var p := CardParams(ExampleCard);
      && "number" in p && p["number"] == Str("4242424242424242")
      && "cvc" in p && p["cvc"] == Str("123")
      && "exp_month" in p && p["exp_month"] == Int(12)
      && "exp_year" in p && p["exp_year"] == Int(2024)
      && "name" !in p && "address_line1" !in p && "address_line2" !in p
  {
    var card := ExampleCard;
    NotBlankWhenVisible("4242424242424242", 0);
    NotBlankWhenVisible("123", 0);
    BlankIffAllTrimmed("");
    BlankIffAllTrimmed("  ");
    CardExpiryKept(card);
    CardTextFieldPresentIffNotBlank(card, "number");
    CardTextFieldPresentIffNotBlank(card, "cvc");
    CardTextFieldPresentIffNotBlank(card, "name");
    CardTextFieldPresentIffNotBlank(card, "address_line1");
    CardTextFieldPresentIffNotBlank(card, "address_line2");
  }

  /** In this example the fingerprint holds the digests of "abc123"
      and "com.example.appabc123", when they are not blank, next to the card
      and the (empty) logging tokens. */
  lemma ExampleCardTokenParams(hash: Hasher)
    ensures var r := CardTokenParams(ExampleProvider, hash, ExampleCard);
      && TYPE_CARD in r && r[TYPE_CARD] == Nested(CardParams(ExampleCard))
      && FIELD_PRODUCT_USAGE in r && r[FIELD_PRODUCT_USAGE] == Tokens([])
      && (GUID in r <==> !IsBlank(hash("abc123")))
      && (!IsBlank(hash("abc123")) ==> r[GUID] == Str(hash("abc123").value))
      && (MUID in r <==> !IsBlank(hash("com.example.appabc123")))
      && (!IsBlank(hash("com.example.appabc123")) ==> r[MUID] == Str(hash("com.example.appabc123").value))
  {
    var card, provider := ExampleCard, ExampleProvider;
    NotBlankWhenVisible("abc123", 0);
    assert Concat(provider.packageName, "abc123") == "com.example.appabc123";
    CardTopLevel(provider, hash, card);
    var base := map[FIELD_PRODUCT_USAGE := TokensOrNull(card.loggingTokens), TYPE_CARD := Nested(CardParams(card))];
    TopLevelKeysDistinct();
    UidSetsMuid(base, provider, hash);
  }

  // ---------------------------------------------------------------------
  // Bank account parameters

  /** The bank account sub-map as filled by the six `put`s, before pruning. */
  function BankAccountFields(bankAccount: BankAccount): map<string, Value> {
    map[
      "country" := StrOrNull(bankAccount.countryCode),
      "currency" := StrOrNull(bankAccount.currency),
      "account_number" := StrOrNull(bankAccount.accountNumber),
      "routing_number" := StrOrNull(NullIfBlank(bankAccount.routingNumber)),
      "account_holder_name" := StrOrNull(NullIfBlank(bankAccount.accountHolderName)),
      "account_holder_type" := StrOrNull(NullIfBlank(bankAccount.accountHolderType))
    ]
  }

  function BankAccountParams(bankAccount: BankAccount): map<string, Value> {
    Pruned(BankAccountFields(bankAccount))
  }

  /** The whole result of `hashMapFromBankAccount`. */
  function BankAccountTokenParams(bankAccount: BankAccount): map<string, Value> {
    map[TYPE_BANK_ACCOUNT := Nested(BankAccountParams(bankAccount))]
  }

  /** `hashMapFromBankAccount` with a provider: builds and prunes the account
      sub-map and nests it; no fingerprint is added. */
  method HashMapFromBankAccount(provider: UidProvider, bankAccount: BankAccount) returns (tokenParams: ParamMap)
    ensures fresh(tokenParams)
    ensures tokenParams.entries == BankAccountTokenParams(bankAccount)
  {
    tokenParams := new ParamMap();
    var accountParams := new ParamMap();

    accountParams.Put("country", StrOrNull(bankAccount.countryCode));
    accountParams.Put("currency", StrOrNull(bankAccount.currency));
    accountParams.Put("account_number", StrOrNull(bankAccount.accountNumber));
    accountParams.Put("routing_number", StrOrNull(NullIfBlank(bankAccount.routingNumber)));
    accountParams.Put("account_holder_name", StrOrNull(NullIfBlank(bankAccount.accountHolderName)));
    accountParams.Put("account_holder_type", StrOrNull(NullIfBlank(bankAccount.accountHolderType)));
    assert accountParams.entries == BankAccountFields(bankAccount);

    RemoveNullParams(accountParams);

    tokenParams.Put(TYPE_BANK_ACCOUNT, Nested(accountParams.entries));
  }

  /** The bank account result has the single key `bank_account`: no `guid`,
      no `muid`. */
  lemma BankAccountTopLevel(bankAccount: BankAccount)
    ensures var r := BankAccountTokenParams(bankAccount);
      && r.Keys == {TYPE_BANK_ACCOUNT}
      && r[TYPE_BANK_ACCOUNT] == Nested(BankAccountParams(bankAccount))
  {
  }

  /** Country, currency and account number are copied raw: each is present
      exactly when it is not null, even when blank, and then unchanged. */
  lemma BankAccountRawFieldsKept(bankAccount: BankAccount)
    ensures var p := BankAccountParams(bankAccount);
      && ("country" in p <==> bankAccount.countryCode.Some?)
      && ("country" in p ==> p["country"] == Str(bankAccount.countryCode.value))
      && ("currency" in p <==> bankAccount.currency.Some?)
      && ("currency" in p ==> p["currency"] == Str(bankAccount.currency.value))
      && ("account_number" in p <==> bankAccount.accountNumber.Some?)
      && ("account_number" in p ==> p["account_number"] == Str(bankAccount.accountNumber.value))
  {
    // Solver hints: the map-literal lookups, kept so the proof stays well under the resource limit.
    var f := BankAccountFields(bankAccount);
    assert f["country"] == StrOrNull(bankAccount.countryCode);
    assert f["currency"] == StrOrNull(bankAccount.currency);
    assert f["account_number"] == StrOrNull(bankAccount.accountNumber);
  }

  /** The routing number, holder name and holder type are present exactly
      when they are not blank, and then unchanged. */
  lemma BankAccountOptionalFieldsPresentIffNotBlank(bankAccount: BankAccount)
    ensures var p := BankAccountParams(bankAccount);
      && ("routing_number" in p <==> !IsBlank(bankAccount.routingNumber))
      && ("routing_number" in p ==> p["routing_number"] == Str(bankAccount.routingNumber.value))
      && ("account_holder_name" in p <==> !IsBlank(bankAccount.accountHolderName))
      && ("account_holder_name" in p ==> p["account_holder_name"] == Str(bankAccount.accountHolderName.value))
      && ("account_holder_type" in p <==> !IsBlank(bankAccount.accountHolderType))
      && ("account_holder_type" in p ==> p["account_holder_type"] == Str(bankAccount.accountHolderType.value))
  {
    // Solver hints: the map-literal lookups, kept so the proof stays well under the resource limit.
    var f := BankAccountFields(bankAccount);
    assert f["routing_number"] == StrOrNull(NullIfBlank(bankAccount.routingNumber));
    assert f["account_holder_name"] == StrOrNull(NullIfBlank(bankAccount.accountHolderName));
    assert f["account_holder_type"] == StrOrNull(NullIfBlank(bankAccount.accountHolderType));
  }

  /** The account sub-map sends nothing but those six fields. */
  lemma BankAccountParamsKeys(bankAccount: BankAccount)
    ensures BankAccountParams(bankAccount).Keys <=
      {"country", "currency", "account_number", "routing_number", "account_holder_name", "account_holder_type"}
  {
  }
}
