/** Small building blocks shared by every screen: optional values, the outcome of an
    awaited promise, JavaScript's `||` on strings and the object-as-dictionary lookup. */
module Common {

  datatype Option<+T> = None | Some(value: T)

  /** The settled state of an awaited promise: it resolved with a value or it rejected. */
  datatype Outcome<+T> = Ok(value: T) | Failed

  /** `a || fallback` for a string that may be absent: an absent or empty string is falsy. */
  function TextOr(a: Option<string>, fallback: string): (r: string)
    ensures a.Some? && a.value != "" ==> r == a.value
    ensures a.None? || a.value == "" ==> r == fallback
    ensures r == "" ==> fallback == ""
  {
    if a.Some? && a.value != "" then a.value else fallback
  }

  /** `a || fallback` for a string field that is always present. */
  function StringOr(a: string, fallback: string): (r: string)
    ensures r == TextOr(Some(a), fallback)
    ensures fallback != "" ==> r != ""
  {
    if a != "" then a else fallback
  }

  /** Names that every plain JavaScript object inherits from Object.prototype, so that
      `record[name]` is truthy even when nothing was ever stored under `name`. */
  const ObjectPrototypeMembers: set<string> := {
    "constructor", "__proto__", "__defineGetter__", "__defineSetter__",
    "__lookupGetter__", "__lookupSetter__", "hasOwnProperty", "isPrototypeOf",
    "propertyIsEnumerable", "toLocaleString", "toString", "valueOf"
  }

  /** The test `if (record[key])` as the source writes it, on a record whose stored values
      are all truthy (arrays and objects): inherited members count as hits too. */
  predicate HitAsWritten<V>(record: map<string, V>, key: string)
  {
    key in record || key in ObjectPrototypeMembers
  }

  /** The evidently intended test: a hit is exactly a key that was stored. */
  predicate Hit<V>(record: map<string, V>, key: string)
  {
    key in record
  }

  /** An empty record is a hit for some key under the source's test, never under the intended one. */
  lemma EmptyRecordHitsAsWritten<V>(empty: map<string, V>)
    requires empty == map[]
    ensures HitAsWritten(empty, "constructor")
    ensures forall key :: !Hit(empty, key)
  {
  }

  /** Under the intended test a key is a hit exactly once it has been stored, and storing one
      key changes the answer for no other key. */
  lemma HitAfterStore<V>(record: map<string, V>, key: string, value: V, other: string)
    ensures Hit(record[key := value], key)
    ensures other != key ==> (Hit(record[key := value], other) <==> Hit(record, other))
  {
  }
}
