# Stripe network parameter utilities, in Dafny

This project models `StripeNetworkUtils` from the Stripe Android SDK. That class
turns a card or a bank account into the `Map<String, Object>` that is sent to
the payments API. It has three parts:

- **Null pruning** (`removeNullParams`). The method takes a snapshot of a
  map's key set and removes, in place, every key whose value is null.
- **Parameter building.** `hashMapFromCard` fills a `card` sub-map with twelve
  `put`s, prunes it, and nests it next to the product-usage logging tokens.
  The top level is never pruned. The method then adds the device fingerprint.
  `hashMapFromBankAccount` does the same for a `bank_account` sub-map and adds
  no fingerprint.
- **Device fingerprint** (`addUidParams`). The method reads a uid from a
  `UidProvider`. If the uid is blank, it leaves the map alone. Otherwise it
  writes `guid = H(uid)` and `muid = H(packageName + uid)`. Each is written only
  if its digest is not blank.

Files:

- `java_text.dfy` (module `JavaText`) holds the Java text semantics the class
  relies on. It has nullable values (`Option`) and `String.trim()`, which drops
  leading and trailing characters up to U+0020. It defines `isBlank` (null, or
  empty after `trim()`) and `nullIfBlank`, which passes a non-blank string
  through untrimmed. It also defines string `+`, which spells a null operand as
  `"null"`.
- `stripe_network_utils.dfy` (module `StripeNetworkUtils`) holds the rest:
  - `Value`: a map value is null, a string, an integer, the token list or a
    nested map.
  - The `Card`, `BankAccount` and `UidProvider` records.
  - `ParamMap`: a class whose `entries` field stands for the mutable Java map.
    It has `Get`, `Put` and `Remove`.
  - The three operations as methods that change `ParamMap` objects in place.
  - The functions that specify those methods: `Pruned`, `WithUid`,
    `CardTokenParams` and `BankAccountTokenParams`.
  - The lemmas that state what the results mean.

The digest `StripeTextUtils.shaHashInput` is a parameter `hash: string ->
Option<string>`. It is deterministic because it is a function, and it may
return null. The provider is the pair of values its two getters return.

Points where the code's behaviour is easy to misread:

- The card sub-map includes `address_zip` (line 56).
- `exp_month` and `exp_year` are Java `Integer`s. They are pruned when null,
  so they are present exactly when the card has them (lines 49-50, 61).
- A bank account's country, currency and account number are copied raw. They
  are pruned when null but kept when blank (lines 94-96, 105).
- The product-usage key is present even when the token list is null, because
  the top level is never pruned (line 65).
- The maps are updated in place, not rebuilt as new values.
- A uid that is not blank always produces the muid input `packageName + uid`, and with the same package two different uids give two different inputs (`JavaText.ConcatInjective`).

## Model

| member | source | states |
|---|---|---|
| JavaText.NullIfBlank | stripe/src/main/java/com/stripe/android/util/StripeNetworkUtils.java:47-58 | the result is null exactly when the input is null or made only of characters up to U+0020 (what `trim()` empties), and otherwise it is the input itself, untrimmed |
| JavaText.ConcatInjective | stripe/src/main/java/com/stripe/android/util/StripeNetworkUtils.java:136-140 | `packageName + uid` is injective in the uid: with the same package name (or a null one, spelled "null"), two muid inputs are equal only when the uids are equal |
| JavaText.BlankIffAllTrimmed | stripe/src/main/java/com/stripe/android/util/StripeNetworkUtils.java:131-133 | a non-null string is blank (nothing left after `trim()`) exactly when every character is at most U+0020 |
| JavaText.NotBlankWhenVisible | stripe/src/main/java/com/stripe/android/util/StripeNetworkUtils.java:131-133 | a string with one character above U+0020 is not blank and `nullIfBlank` keeps it |
| StripeNetworkUtils.ParamMap.constructor | stripe/src/main/java/com/stripe/android/util/StripeNetworkUtils.java:44-46 | a new map is empty |
| StripeNetworkUtils.ParamMap.Put | stripe/src/main/java/com/stripe/android/util/StripeNetworkUtils.java:47 | `put` maps the key to the value, null included, and changes no other key |
| StripeNetworkUtils.ParamMap.Remove | stripe/src/main/java/com/stripe/android/util/StripeNetworkUtils.java:115 | `remove` drops exactly that key |
| StripeNetworkUtils.Pruned | stripe/src/main/java/com/stripe/android/util/StripeNetworkUtils.java:111-118 | after pruning no key maps to null, a key is kept exactly when its value was not null, and every kept key holds its old value |
| StripeNetworkUtils.PrunedIdempotent | stripe/src/main/java/com/stripe/android/util/StripeNetworkUtils.java:111-118 | pruning a second time changes nothing |
| StripeNetworkUtils.PrunedNoNullIsIdentity | stripe/src/main/java/com/stripe/android/util/StripeNetworkUtils.java:111-118 | a map with no null value is left exactly as it is |
| StripeNetworkUtils.RemoveNullParams | stripe/src/main/java/com/stripe/android/util/StripeNetworkUtils.java:111-118 | walking the key snapshot in any order leaves the caller's map equal to the pruning of its old contents |
| StripeNetworkUtils.AddUidParams | stripe/src/main/java/com/stripe/android/util/StripeNetworkUtils.java:120-149 | on the provider path the caller's map ends equal to `WithUid` of its old contents, about which the lemmas below are proved |
| StripeNetworkUtils.BlankUidLeavesParams | stripe/src/main/java/com/stripe/android/util/StripeNetworkUtils.java:131-133 | a blank or null uid leaves the parameters exactly as they were |
| StripeNetworkUtils.UidSetsGuid | stripe/src/main/java/com/stripe/android/util/StripeNetworkUtils.java:135-144 | with a non-blank uid, `guid` holds H(uid) when that digest is not blank, and otherwise keeps its old entry or absence |
| StripeNetworkUtils.UidSetsMuid | stripe/src/main/java/com/stripe/android/util/StripeNetworkUtils.java:136-148 | with a non-blank uid, `muid` holds H(packageName + uid) when that digest is not blank, and otherwise keeps its old entry or absence |
| StripeNetworkUtils.UidKeepsOtherKeys | stripe/src/main/java/com/stripe/android/util/StripeNetworkUtils.java:142-148 | every key other than `guid` and `muid` keeps its presence and its value |
| StripeNetworkUtils.UidWritesOnlyDigests | stripe/src/main/java/com/stripe/android/util/StripeNetworkUtils.java:135-148 | no key is removed, only `guid` and `muid` can be added, and every value is either the old one or one of the two digests; the uid itself is written only through `hash` |
| StripeNetworkUtils.FingerprintDeterministic | stripe/src/main/java/com/stripe/android/util/StripeNetworkUtils.java:135-148 | the same provider writes the same `guid` and `muid` whatever else the parameters hold |
| StripeNetworkUtils.HashMapFromCard | stripe/src/main/java/com/stripe/android/util/StripeNetworkUtils.java:39-71 | the twelve puts, the pruning, the two top-level puts and the fingerprint give a fresh map equal to `CardTokenParams`, about which the lemmas below are proved |
| StripeNetworkUtils.CardTextFieldPresentIffNotBlank | stripe/src/main/java/com/stripe/android/util/StripeNetworkUtils.java:47-61 | each of the ten text fields is in the card sub-map exactly when it is not blank, and then holds the card's value unchanged |
| StripeNetworkUtils.CardExpiryKept | stripe/src/main/java/com/stripe/android/util/StripeNetworkUtils.java:49-61 | `exp_month` and `exp_year` are present exactly when the card has them, as those integers, whatever the blank rule says |
| StripeNetworkUtils.CardParamsKeys | stripe/src/main/java/com/stripe/android/util/StripeNetworkUtils.java:46-61 | the card sub-map has no key beyond the ten text fields and the expiry |
| StripeNetworkUtils.CardTopLevel | stripe/src/main/java/com/stripe/android/util/StripeNetworkUtils.java:44-69 | the card result always holds the product-usage tokens, even a null list, and the pruned card sub-map; its only other keys are `guid` and `muid`; `guid` is there exactly when the uid and H(uid) are not blank, and `muid` exactly when the uid and H(packageName + uid) are not blank, so a blank uid adds neither |
| StripeNetworkUtils.ExampleCardParams | stripe/src/main/java/com/stripe/android/util/StripeNetworkUtils.java:46-61 | a card with number, cvc and expiry but no name and blank address lines sends the number, cvc and expiry unchanged and no name or address line |
| StripeNetworkUtils.ExampleCardTokenParams | stripe/src/main/java/com/stripe/android/util/StripeNetworkUtils.java:135-148 | with uid "abc123" and package "com.example.app", `guid` is H("abc123") and `muid` is H("com.example.appabc123") whenever those digests are not blank |
| StripeNetworkUtils.HashMapFromBankAccount | stripe/src/main/java/com/stripe/android/util/StripeNetworkUtils.java:86-109 | the six puts, the pruning and the single top-level put give a fresh map equal to `BankAccountTokenParams` |
| StripeNetworkUtils.BankAccountTopLevel | stripe/src/main/java/com/stripe/android/util/StripeNetworkUtils.java:91-108 | the bank account result has the single key `bank_account`, so no `guid` or `muid` |
| StripeNetworkUtils.BankAccountRawFieldsKept | stripe/src/main/java/com/stripe/android/util/StripeNetworkUtils.java:94-105 | country, currency and account number are present exactly when not null, even when blank, and unchanged |
| StripeNetworkUtils.BankAccountOptionalFieldsPresentIffNotBlank | stripe/src/main/java/com/stripe/android/util/StripeNetworkUtils.java:97-105 | routing number, holder name and holder type are present exactly when not blank, and unchanged |
| StripeNetworkUtils.BankAccountParamsKeys | stripe/src/main/java/com/stripe/android/util/StripeNetworkUtils.java:92-105 | the account sub-map has no key beyond those six |

## Left out

- The public `Context`-only overloads (lines 35-37, 81-84) are left out. They only pass a null provider to the private overloads.
- The null-provider branches of `addUidParams` are left out. They read `Settings.Secure.ANDROID_ID` and the application context's package name (lines 126-128, 137-138), which are Android platform lookups. Only the `UidProvider` path is modelled.
- `UidProvider` is modelled as the two values its getters return. Each getter is called once per call, so a provider whose answers change between calls is not modelled.
- `StripeTextUtils.shaHashInput` is a parameter `hash`. SHA-256 itself, its hex encoding and its collision resistance are not modelled.
- StripeNetworkUtils.UidWritesOnlyDigests: says only that `guid` and `muid` hold values of `hash`. That the raw uid cannot be read back from them rests on SHA-256 being one-way, which is not modelled: a `hash` that returned its input would store the uid.
- A null `card` is not modelled. `card` is not marked non-null (line 43), and a null card throws a `NullPointerException` at line 47. The model's `Card` is always a record.
- The source of `StripeTextUtils.isBlank` and `nullIfBlank` is not part of this model. They are defined here (`JavaText.IsBlank`, `JavaText.NullIfBlank`) as null or empty after Java's `trim()`.
- The `Card`, `BankAccount` and `Token` classes are records of what their getters return. `LoggingUtils` is not part of this model. Its `FIELD_PRODUCT_USAGE` is taken to be `"product_usage"`; only its distinctness from the other keys is used.
- Nesting: Java stores a reference to the sub-map under `card` or `bank_account`. The model stores the sub-map's contents. Both give the same result because the sub-map is not changed after it is nested.
- `HashMap` iteration order is not modelled. `RemoveNullParams` picks keys in an arbitrary order, and its result is proved not to depend on that order.
- Java `Object` typing, `Integer` boxing and 32-bit width are not modelled. The expiry values are copied and never computed with.
- Concurrency is not modelled. The utilities are static and share no state.
- StripeNetworkUtils.FingerprintDeterministic: compares two maps that have no `guid` or `muid` yet. When one map already holds a `guid` and the digest is blank, that old value stays. `UidSetsGuid` and `UidSetsMuid` state that case.
