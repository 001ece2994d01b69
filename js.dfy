/** The small part of JavaScript's value semantics that the components depend on:
    dynamically typed values, truthiness, `??`, `||`, property access, the
    persistent key-value store, and `String.prototype.replace` with a string
    pattern. */
module Js {

  datatype Option<T> = None | Some(value: T)

  /** A JavaScript value as the components see it (NaN is not modelled). */
  datatype JsValue =
    | Undefined
    | Null
    | Bool(b: bool)
    | Num(n: real)
    | Str(s: string)
    | Arr(items: seq<JsValue>)
    | Obj(fields: map<string, JsValue>)

  /** The values an `if (v)` accepts. */
  predicate Truthy(v: JsValue)
  {
    match v
    case Undefined => false
    case Null => false
    case Bool(b) => b
    case Num(n) => n != 0.0
    case Str(s) => s != ""
    case Arr(_) => true
    case Obj(_) => true
  }

  predicate Nullish(v: JsValue)
  {
    v.Undefined? || v.Null?
  }

  /** `a ?? b` */
  function Coalesce(a: JsValue, b: JsValue): JsValue
  {
    if Nullish(a) then b else a
  }

  /** `a || b` */
  function Or(a: JsValue, b: JsValue): JsValue
  {
    if Truthy(a) then a else b
  }

  /** `o.key` on a plain object */
  function Get(o: map<string, JsValue>, key: string): JsValue
  {
    if key in o then o[key] else Undefined
  }

  /** `v.key` on a value that is not null or undefined: only objects have properties here */
  function Field(v: JsValue, key: string): JsValue
  {
    if v.Obj? then Get(v.fields, key) else Undefined
  }

  /** `Object.is(a, b)`, the test React uses to skip a state update. Arrays and
      objects handed to a setter are taken to be fresh references, so they never
      compare equal to the previous state. */
  predicate SameValue(a: JsValue, b: JsValue)
  {
    !a.Arr? && !a.Obj? && a == b
  }

  /** An array of strings */
  function StrArray(xs: seq<string>): (r: JsValue)
    ensures r.Arr? && |r.items| == |xs|
    ensures forall i :: 0 <= i < |xs| ==> r.items[i] == Str(xs[i])
  {
    Arr(seq(|xs|, i requires 0 <= i < |xs| => Str(xs[i])))
  }

  /** A message handed to the event bus */
  datatype Message = Message(topic: string, payload: map<string, JsValue>)

  /** The persistent store: a map from key to value; a key not in the map is absent. */
  type Store = map<string, JsValue>

  /** `getFromStorage(key)`: an absent key reads as null. */
  function Read(store: Store, key: string): (v: JsValue)
    ensures key !in store ==> v == Null
  {
    if key in store then store[key] else Null
  }

  // ---------------------------------------------------------------------------
  // String.prototype.replace with a string pattern

  /** `pat` occurs in `s` at position `j` */
  predicate MatchesAt(s: string, pat: string, j: nat)
  {
    j + |pat| <= |s| && s[j..j + |pat|] == pat
  }

  /** The first position at or after `from` where `pat` occurs in `s`. */
  function IndexOfFrom(s: string, pat: string, from: nat): (r: Option<nat>)
    requires from <= |s|
    ensures r.Some? ==> from <= r.value && MatchesAt(s, pat, r.value)
    ensures r.Some? ==> forall j :: from <= j < r.value ==> !MatchesAt(s, pat, j)
    ensures r.None? ==> forall j :: from <= j <= |s| ==> !MatchesAt(s, pat, j)
    decreases |s| - from
  {
    if MatchesAt(s, pat, from) then Some(from)
    else if from == |s| then None
    else IndexOfFrom(s, pat, from + 1)
  }

  /** `s.indexOf(pat)` */
  function IndexOf(s: string, pat: string): Option<nat>
  {
    IndexOfFrom(s, pat, 0)
  }

  /** `s.replace(pat, rep)` for a string pattern: only the first occurrence is
      replaced (`rep` is taken literally; no `$` patterns occur in this model). */
  function ReplaceFirst(s: string, pat: string, rep: string): string
  {
    match IndexOf(s, pat)
    case None => s
    case Some(i) => s[..i] + rep + s[i + |pat|..]
  }

  /** The first occurrence is exactly the earliest match. */
  lemma IndexOfIsFirst(s: string, pat: string, i: nat)
    requires MatchesAt(s, pat, i)
    requires forall j :: 0 <= j < i ==> !MatchesAt(s, pat, j)
    ensures IndexOf(s, pat) == Some(i)
  {
  }

  /** Replacing at the first match rewrites exactly that occurrence. */
  lemma ReplaceFirstAt(s: string, pat: string, rep: string, i: nat)
    requires MatchesAt(s, pat, i)
    requires forall j :: 0 <= j < i ==> !MatchesAt(s, pat, j)
    ensures ReplaceFirst(s, pat, rep) == s[..i] + rep + s[i + |pat|..]
  {
    IndexOfIsFirst(s, pat, i);
  }

  /** A pattern that occurs nowhere in `s` leaves it as it is. */
  lemma NoMatch(s: string, pat: string, rep: string)
    requires forall j :: 0 <= j <= |s| ==> !MatchesAt(s, pat, j)
    ensures ReplaceFirst(s, pat, rep) == s
  {
  }

  /** In a string at most one longer than the pattern, a pattern that differs from
      `s` at position `k0` and from `s[1..]` at position `k1` never matches, so the
      replacement leaves `s` as it is. */
  lemma NoMatchNear(s: string, pat: string, rep: string, k0: nat, k1: nat)
    requires |pat| <= |s| <= |pat| + 1
    requires k0 < |pat| && s[k0] != pat[k0]
    requires |s| == |pat| + 1 ==> k1 < |pat| && s[1 + k1] != pat[k1]
    ensures ReplaceFirst(s, pat, rep) == s
  {
    assert s[..|pat|][k0] == s[k0];
    assert !MatchesAt(s, pat, 0);
    if |s| == |pat| + 1 {
      assert s[1..1 + |pat|][k1] == s[1 + k1];
      assert !MatchesAt(s, pat, 1);
    }
  }

  /** A pattern containing a character absent from `s` never matches, so the
      replacement leaves `s` as it is. */
  lemma ReplaceFirstMissingChar(s: string, pat: string, rep: string, c: char)
    requires c in pat && c !in s
    ensures ReplaceFirst(s, pat, rep) == s
  {
    forall j: nat | j <= |s| ensures !MatchesAt(s, pat, j) {
      var k :| 0 <= k < |pat| && pat[k] == c;
      if j + |pat| <= |s| {
        assert s[j..j + |pat|][k] == s[j + k];
      }
    }
  }
}
