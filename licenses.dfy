/** API licenses in the worker's key-value namespace: an API key maps to the reference
    `license:<id>`, which maps to the license record. */
module Licenses {
  import opened Common

  /** A license's `type`: whatever text the purchase named; only "genesis" is special. */
  type LicenseType = string

  predicate IsGenesis(t: LicenseType) {
    t == "genesis"
  }

  datatype License = License(
    id: string,
    kind: LicenseType,
    createdAt: int,
    expiresAt: int,
    email: string,
    activeKey: string,
    updatedAt: Option<int>)

  /** What the namespace holds under a key: a plain text value (an API key's reference, a
      pending claim's key) or a license record. */
  datatype KvValue = Text(text: string) | Record(license: License)

  type Kv = map<string, KvValue>

  /** A lookup that `JSON.parse` rejects: a text value read where a record is expected. */
  datatype KvError = Malformed

  datatype RotateError = InvalidKey | LicenseNotFound | RotateMalformed

  /** Lifetime licenses expire at the last second of the year 9999; annual ones a year (in
      seconds) after creation. */
  const GenesisExpiry: int := 253402300799
  const YearSeconds: int := 31536000

  function RefOf(id: string): string {
    "license:" + id
  }

  function ApiKey(t: LicenseType, suffix: string): string {
    "sk_" + t + "_" + suffix
  }

  /** The reference an API key holds: a non-empty text value. A record stored under the key
      reads as its JSON text, which names no key of the namespace. */
  function RefFor(kv: Kv, key: string): Option<string> {
    if key in kv && kv[key].Text? && kv[key].text != "" then Some(kv[key].text) else None
  }

  /** The record behind a reference: absent (or empty) is None, a record is itself, text is a
      JSON parse error. */
  function RecordAt(kv: Kv, ref: string): Result<Option<License>, KvError> {
    if ref !in kv then Ok(None)
    else match kv[ref]
      case Record(l) => Ok(Some(l))
      case Text(t) => if t == "" then Ok(None) else Err(Malformed)
  }

  /** `validate(key)` at `now` milliseconds: the record behind the key unless it has expired. */
  function Validate(kv: Kv, key: string, now: nat): (r: Result<Option<License>, KvError>)
    ensures RefFor(kv, key).None? ==> r == Ok(None)
    ensures r.Ok? && r.value.Some? ==>
      && RefFor(kv, key).Some?
      && RecordAt(kv, RefFor(kv, key).value) == Ok(r.value)
      && r.value.value.expiresAt >= now / 1000
  {
    match RefFor(kv, key)
    case None => Ok(None)
    case Some(ref) =>
      match RecordAt(kv, ref)
      case Err(e) => Err(e)
      case Ok(None) => Ok(None)
      case Ok(Some(l)) => if l.expiresAt < now / 1000 then Ok(None) else Ok(Some(l))
  }

  /** A record that exists behind a key is returned until its expiry second, and not after. */
  lemma ValidateExpiry(kv: Kv, key: string, now: nat, l: License)
    requires RefFor(kv, key).Some? && RecordAt(kv, RefFor(kv, key).value) == Ok(Some(l))
    ensures now / 1000 <= l.expiresAt ==> Validate(kv, key, now) == Ok(Some(l))
    ensures now / 1000 > l.expiresAt ==> Validate(kv, key, now) == Ok(None)
  {
  }

  /** The record `create` writes. */
  function NewLicense(t: LicenseType, id: string, suffix: string, email: Option<string>, now: nat): (l: License)
    ensures IsGenesis(l.kind) ==> l.expiresAt == GenesisExpiry
    ensures !IsGenesis(l.kind) ==> l.expiresAt == now / 1000 + YearSeconds
  {
    License(id, t, now, if IsGenesis(t) then GenesisExpiry else now / 1000 + YearSeconds,
      OrDefault(email, "anon"), ApiKey(t, suffix), None)
  }

  /** The namespace after `create`: the record, then the key's reference. */
  function CreateKv(kv: Kv, t: LicenseType, id: string, suffix: string, email: Option<string>, now: nat): Kv {
    kv[RefOf(id) := Record(NewLicense(t, id, suffix, email, now))][ApiKey(t, suffix) := Text(RefOf(id))]
  }

  lemma KeyIsNotRef(t: LicenseType, suffix: string, id: string)
    ensures ApiKey(t, suffix) != RefOf(id)
  {
    assert ApiKey(t, suffix)[0] == 's' && RefOf(id)[0] == 'l';
  }

  /** A created key validates to its record until the record expires; for a lifetime license
      that is any time up to the year 9999. Nothing else in the namespace changes. */
  lemma CreatedKeyValidates(kv: Kv, t: LicenseType, id: string, suffix: string, email: Option<string>, now: nat, later: nat)
    ensures var kv' := CreateKv(kv, t, id, suffix, email, now);
      var l := NewLicense(t, id, suffix, email, now);
      && (later / 1000 <= l.expiresAt ==> Validate(kv', ApiKey(t, suffix), later) == Ok(Some(l)))
      && (IsGenesis(t) && later / 1000 <= GenesisExpiry ==> Validate(kv', ApiKey(t, suffix), later).Ok?)
      && (forall k :: k in kv && k != RefOf(id) && k != ApiKey(t, suffix) ==> k in kv' && kv'[k] == kv[k])
  {
    KeyIsNotRef(t, suffix, id);
  }

  /** `rotate(oldKey)`: the namespace after its three writes and the new key, or the error it
      throws before writing anything. */
  function RotateKv(kv: Kv, oldKey: string, suffix: string, now: nat): Result<(Kv, string), RotateError> {
    match RefFor(kv, oldKey)
    case None => Err(if oldKey in kv && kv[oldKey].Record? then LicenseNotFound else InvalidKey)
    case Some(ref) =>
      match RecordAt(kv, ref)
      case Err(_) => Err(RotateMalformed)
      case Ok(None) => Err(LicenseNotFound)
      case Ok(Some(l)) =>
        var newKey := ApiKey(l.kind, suffix);
        var updated := l.(activeKey := newKey, updatedAt := Some(now));
        Ok((kv[ref := Record(updated)][newKey := Text(ref)] - {oldKey}, newKey))
  }

  /** A rotated key keeps the license alive under the new key only: a freshly generated new key
      validates exactly when the old one did, to the same license with the new active key and the same
      expiry, and the old key no longer resolves. */
  lemma RotateMovesValidity(kv: Kv, oldKey: string, suffix: string, now: nat, later: nat)
    requires RotateKv(kv, oldKey, suffix, now).Ok?
    requires RotateKv(kv, oldKey, suffix, now).value.1 !in kv
    ensures var (kv', newKey) := RotateKv(kv, oldKey, suffix, now).value;
      && Validate(kv', oldKey, later) == Ok(None)
      && Validate(kv', newKey, later).Ok?
      && Validate(kv, oldKey, later).Ok?
      && (Validate(kv', newKey, later).value.Some? <==> Validate(kv, oldKey, later).value.Some?)
      && (Validate(kv, oldKey, later).value.Some? ==>
            Validate(kv', newKey, later).value.value ==
            Validate(kv, oldKey, later).value.value.(activeKey := newKey, updatedAt := Some(now)))
  {
    var ref := RefFor(kv, oldKey).value;
    assert ref in kv && ref != oldKey;
  }

  /** Rotating an unknown key changes nothing and reports an invalid key. */
  lemma RotateUnknownKey(kv: Kv, oldKey: string, suffix: string, now: nat)
    requires oldKey !in kv
    ensures RotateKv(kv, oldKey, suffix, now) == Err(InvalidKey)
  {
  }

  /** The `LICENSES` namespace. */
  class LicenseStore {
    var kv: Kv

    constructor(kv: Kv)
      ensures this.kv == kv
    {
      this.kv := kv;
    }

    method Put(key: string, value: KvValue)
      modifies this
      ensures kv == old(kv)[key := value]
    {
      kv := kv[key := value];
    }

    method Delete(key: string)
      modifies this
      ensures kv == old(kv) - {key}
    {
      kv := kv - {key};
    }

    /** `create`; `id` and `suffix` stand for the random UUID and the UUID fragments. */
    method Create(t: LicenseType, id: string, suffix: string, email: Option<string>, now: nat) returns (apiKey: string, expiresAt: int)
      modifies this
      ensures kv == CreateKv(old(kv), t, id, suffix, email, now)
      ensures apiKey == ApiKey(t, suffix) && expiresAt == NewLicense(t, id, suffix, email, now).expiresAt
    {
      var l := NewLicense(t, id, suffix, email, now);
      Put(RefOf(id), Record(l));
      apiKey := ApiKey(t, suffix);
      Put(apiKey, Text(RefOf(id)));
      expiresAt := l.expiresAt;
    }

    /** `rotate`: a put of the updated record, a put of the new key, a delete of the old key. */
    method Rotate(oldKey: string, suffix: string, now: nat) returns (r: Result<string, RotateError>)
      modifies this
      ensures var spec := RotateKv(old(kv), oldKey, suffix, now);
        && (spec.Err? ==> r == Err(spec.error) && kv == old(kv))
        && (spec.Ok? ==> r == Ok(spec.value.1) && kv == spec.value.0)
    {
      var ref := RefFor(kv, oldKey);
      if ref.None? {
        return Err(if oldKey in kv && kv[oldKey].Record? then LicenseNotFound else InvalidKey);
      }
      var record := RecordAt(kv, ref.value);
      if record.Err? {
        return Err(RotateMalformed);
      }
      if record.value.None? {
        return Err(LicenseNotFound);
      }
      var l := record.value.value;
      var newKey := ApiKey(l.kind, suffix);
      Put(ref.value, Record(l.(activeKey := newKey, updatedAt := Some(now))));
      Put(newKey, Text(ref.value));
      Delete(oldKey);
      r := Ok(newKey);
    }
  }
}
