/**
 * The diagnostic helpers of debug_utils.py: the flag that switches
 * diagnostics on, and the recursive shortening of long strings inside a
 * JSON-like value before it is printed.
 */
module DebugUtils {
  import opened Wrappers
  import opened JsonValue
  import Text

  /** The ellipsis appended to a shortened string. */
  const Ellipsis: string := "…"

  /**
   * `_shorten(value, limit)`: strings longer than `limit` keep their first
   * `limit` characters and gain an ellipsis; objects and arrays are walked
   * recursively, keeping their keys, length and order; everything else is
   * returned unchanged.
   */
  function Shorten(v: Json, limit: nat): (r: Json)
    ensures v.JStr? && |v.s| > limit ==> r == JStr(v.s[..limit] + Ellipsis)
    ensures v.JStr? && |v.s| <= limit ==> r == v
    ensures v.JObject? ==> r.JObject? && r.fields.Keys == v.fields.Keys
    ensures v.JObject? ==> forall k :: k in v.fields ==> r.fields[k] == Shorten(v.fields[k], limit)
    ensures v.JArray? ==> r.JArray? && |r.items| == |v.items|
    ensures v.JArray? ==> forall i :: 0 <= i < |v.items| ==> r.items[i] == Shorten(v.items[i], limit)
    ensures !v.JStr? && !v.JObject? && !v.JArray? ==> r == v
  {
    match v
    case JStr(s) => if |s| > limit then JStr(s[..limit] + Ellipsis) else v
    case JObject(m) => JObject(map k | k in m :: Shorten(m[k], limit))
    case JArray(xs) => JArray(seq(|xs|, i requires 0 <= i < |xs| => Shorten(xs[i], limit)))
    case _ => v
  }

  /** Every string inside `v` has at most `n` characters. */
  ghost predicate StringsAtMost(v: Json, n: nat)
  {
    match v
    case JStr(s) => |s| <= n
    case JObject(m) => forall k :: k in m ==> StringsAtMost(m[k], n)
    case JArray(xs) => forall i :: 0 <= i < |xs| ==> StringsAtMost(xs[i], n)
    case _ => true
  }

  /** After shortening, no string inside the value is longer than `limit + 1`. */
  lemma {:induction false} ShortenBounds(v: Json, limit: nat)
    ensures StringsAtMost(Shorten(v, limit), limit + 1)
  {
    match v
    case JStr(s) =>
    case JObject(m) =>
      forall k | k in m ensures StringsAtMost(Shorten(v, limit).fields[k], limit + 1) {
        ShortenBounds(m[k], limit);
      }
    case JArray(xs) =>
      forall i | 0 <= i < |xs| ensures StringsAtMost(Shorten(v, limit).items[i], limit + 1) {
        ShortenBounds(xs[i], limit);
      }
    case _ =>
  }

  /** Shortening an already shortened value changes nothing. */
  lemma {:induction false} ShortenIdempotent(v: Json, limit: nat)
    ensures Shorten(Shorten(v, limit), limit) == Shorten(v, limit)
  {
    match v
    case JStr(s) =>
      if |s| > limit {
        var t := s[..limit] + Ellipsis;
        assert t[..limit] == s[..limit];
      }
    case JObject(m) =>
      var r := Shorten(v, limit);
      forall k | k in m ensures Shorten(r.fields[k], limit) == r.fields[k] {
        ShortenIdempotent(m[k], limit);
      }
      assert Shorten(r, limit).fields == r.fields;
    case JArray(xs) =>
      var r := Shorten(v, limit);
      forall i | 0 <= i < |xs| ensures Shorten(r.items[i], limit) == r.items[i] {
        ShortenIdempotent(xs[i], limit);
      }
      assert Shorten(r, limit).items == r.items;
    case _ =>
  }

  /** A value whose strings are all within the limit is left as it is. */
  lemma {:induction false} ShortenKeepsShortValues(v: Json, limit: nat)
    requires StringsAtMost(v, limit)
    ensures Shorten(v, limit) == v
  {
    match v
    case JStr(s) =>
    case JObject(m) =>
      forall k | k in m ensures Shorten(m[k], limit) == m[k] {
        ShortenKeepsShortValues(m[k], limit);
      }
      assert Shorten(v, limit).fields == m;
    case JArray(xs) =>
      forall i | 0 <= i < |xs| ensures Shorten(xs[i], limit) == xs[i] {
        ShortenKeepsShortValues(xs[i], limit);
      }
      assert Shorten(v, limit).items == xs;
    case _ =>
  }

  /** The values of `DEBUG_AGENT` that switch diagnostics off, after lower-casing. */
  const DisablingValues: set<string> := {"0", "false", "no"}

  /**
   * `DEBUG_ENABLED`: the environment value (absent means "1") lower-cased,
   * and diagnostics are on unless it is one of the disabling values.
   */
  function DebugEnabled(env: Option<string>): (enabled: bool)
    ensures !enabled <==> Text.Lower(env.GetOr("1")) in DisablingValues
  {
    Text.Lower(env.GetOr("1")) !in DisablingValues
  }

  /** Unset, empty and any other value switch diagnostics on; the three words switch them off in any case. */
  lemma DebugFlagExamples()
    ensures DebugEnabled(None)
    ensures DebugEnabled(Some(""))
    ensures DebugEnabled(Some("yes")) && DebugEnabled(Some("1"))
    ensures !DebugEnabled(Some("0"))
    ensures !DebugEnabled(Some("FALSE")) && !DebugEnabled(Some("False"))
    ensures !DebugEnabled(Some("No")) && !DebugEnabled(Some("NO"))
  {
    assert Text.Lower("1") == "1";
    assert Text.Lower("yes") == "yes";
    assert Text.Lower("0") == "0";
    assert Text.Lower("FALSE") == "false";
    assert Text.Lower("False") == "false";
    assert Text.Lower("No") == "no";
    assert Text.Lower("NO") == "no";
  }
}
