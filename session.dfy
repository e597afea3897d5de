/**
 * What the three bots share around their settings dictionaries: the insertion of defaults on
 * first access, the outcome of a confirmation that looks a name up with `TABLE[key]`, the reply
 * to a code message, and the decoding of a keyboard button's callback data.
 */
module Session {
  import opened Wrappers
  import opened Strings
  import opened Registry
  import opened Keyboard
  import Canvas

  /** The answer to a button press: the display name of the new choice, the `KeyError` raised
      by looking it up, or nothing when the data has no known prefix. */
  datatype Outcome = Confirmed(name: string) | MissingKey(key: string) | Ignored

  /** The answer to a code message: the picture with its caption lines, or the `KeyError` raised
      while writing the caption (then only an error text is sent). */
  datatype Reply = Photo(image: Canvas.Picture, caption: seq<string>) | Failed(missing: string)

  /** `get_user_settings`' effect on the store: the defaults are filed under an unseen id; every
      entry already present, that id's included, stays as it was. */
  function WithDefaults<S>(users: map<int, S>, id: int, defaults: S): (m: map<int, S>)
    ensures m.Keys == users.Keys + {id}
    ensures forall k :: k in users ==> m[k] == users[k]
    ensures id !in users ==> m[id] == defaults
  {
    if id in users then users else users[id := defaults]
  }

  /** A second access changes nothing more. */
  lemma WithDefaultsIdempotent<S>(users: map<int, S>, id: int, defaults: S)
    ensures WithDefaults(WithDefaults(users, id, defaults), id, defaults) == WithDefaults(users, id, defaults)
  {
  }

  /** `f"...{TABLE[key]...}"`: the name shown for `key`, or the `KeyError`. */
  function Confirm<V(!new)>(t: Table<V>, key: string, name: V -> string): (o: Outcome)
    ensures o.Confirmed? <==> key in Keys(t)
    ensures o.Confirmed? ==> exists v :: (key, v) in t && o.name == name(v)
    ensures o.MissingKey? ==> o.key == key
  {
    match Lookup(t, key)
    case Some(v) => Confirmed(name(v))
    case None => MissingKey(key)
  }

  /** `data.replace(prefix, "")` for data that starts with `prefix`, else nothing. */
  function Decode(data: string, prefix: string): (key: Option<string>)
    requires |prefix| > 0
    ensures key.Some? <==> StartsWith(data, prefix)
  {
    if StartsWith(data, prefix) then Some(RemoveAll(data, prefix)) else None
  }

  /** No id contains an underscore, so `prefix + id` decodes back to the id. */
  predicate Plain<V>(t: Table<V>) {
    forall k :: 0 <= k < |t| ==> '_' !in t[k].0
  }

  /**
   * Pressing the `k`-th button of a keyboard built from a table decodes to the `k`-th id and is
   * confirmed with the very text the button shows.
   */
  lemma {:induction false} ButtonDecodes<V(!new)>(t: Table<V>, name: V -> string, prefix: string, k: nat)
    requires Distinct(t) && Plain(t) && k < |t| && '_' in prefix
    ensures var b := Buttons(t, name, prefix)[k];
      && Decode(b.data, prefix) == Some(t[k].0)
      && Confirm(t, t[k].0, name) == Confirmed(b.text)
  {
    PrefixRemoved(prefix, t[k].0, '_');
    assert StartsWith(prefix + t[k].0, prefix);
    LookupAt(t, k);
  }
}
